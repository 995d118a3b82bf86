/** What becomes of every registration, and of every chain that was ever unlinked, in a whole run and after
    `wirecall_routes_destroy`. */
module RouteFates {
  import opened Options
  import opened RouteTable
  import opened RouteInvariant
  import opened RouteMutation
  import opened RouteTheorems
  import opened RouteCalls
  import opened RouteLeaks
  import opened RouteReaders
  import opened RouteDestroy

  // ---------- the life of a registration ----------

  // How the status of a registration may change in one step.
  predicate Moves(a: Option<Status>, b: Option<Status>) {
    || a == b
    || (a.None? && b.Some? && b.value.InFlight?)
    || (a.Some? && b.Some? && match a.value
        case InFlight(_) => b.value.Failed? || b.value.Live?
        case Live(_) => b.value.Dying?
        case Dying(_) => b.value.Finalized? || b.value.Lost?
        case _ => false)
  }

  // The step loses r: no memory for the retired node of the chain that was to finalize r.
  ghost predicate Loses(s: State, th: Tid, act: Act, r: Reg) {
    && th in s.threads && s.threads[th].MPush? && act.Tau? && !act.ok
    && s.threads[th].prevTok.Some? && s.threads[th].prevTok.value < |s.gens|
    && FinReg(s.gens[s.threads[th].prevTok.value]) == Some(r)
  }

  ghost predicate Moved(s: State, th: Tid, act: Act, s': State, r: Reg) {
    && Moves(Get(s.status, r), Get(s'.status, r))
    && (Get(s'.status, r) == Some(Lost) <==> Get(s.status, r) == Some(Lost) || Loses(s, th, act, r))
  }

  lemma Flies(home: Pid -> Slot, s: State, th: Tid)
    requires Inv(home, s) && th in s.threads && Pending(s.threads[th]) && s.threads[th].op.Add?
    ensures Get(s.status, s.threads[th].op.reg) == Some(InFlight(th))
  {
    hide GensOk, HeapOk, SlotsOk, TableOk, StatusOk, ThreadsOk, CountOk, LockOk, HolderOk, WatchedOk;
  }

  lemma MovedBegin(s: State, th: Tid, act: Act, s': State, r: Reg)
    requires th in s.threads && s.threads[th].Idle? && BeginStep(s, th, act, s')
    ensures Moved(s, th, act, s', r)
  {
  }

  // An add that fails, or is still under way.
  lemma MovedReset(s: State, th: Tid, act: Act, s': State, r: Reg)
    requires th in s.threads && Pending(s.threads[th])
    requires s.threads[th].op.Add? ==> Get(s.status, s.threads[th].op.reg) == Some(InFlight(th))
    requires s'.status == s.status || s'.status == Reset(s.status, s.threads[th].op, Failed)
    ensures Moved(s, th, act, s', r)
  {
  }

  lemma StoreStatus(s: State, pc: PC, caller: Tid, r: Reg)
    requires pc.MStore? && (pc.op.Add? ==> Get(s.status, pc.op.reg) == Some(InFlight(caller)))
    requires pc.op.pid in s.table ==> Get(s.status, s.table[pc.op.pid]) == Some(Live(pc.op.pid))
    ensures var a, b := Get(s.status, r), Get(SwappedStatus(s, pc), r);
            Moves(a, b) && (a == Some(Lost) <==> b == Some(Lost))
  {
  }

  lemma LiveBinding(home: Pid -> Slot, s: State, pid: Pid)
    requires Inv(home, s) && pid in s.table
    ensures Get(s.status, s.table[pid]) == Some(Live(pid))
  {
    hide GensOk, HeapOk, SlotsOk, TableOk, StatusOk, ThreadsOk, CountOk, LockOk, FlightOk, HolderOk, WatchedOk;
    TableLive(s.table, s.gens, s.status, s.log);
  }

  lemma StoresStatus(home: Pid -> Slot, s: State, pc: PC, s': State)
    requires pc.MStore? && StoreStep(home, s, pc, s')
    ensures s'.status == SwappedStatus(s, pc)
  {
    hide Swapped, SwappedStatus;
  }

  lemma MovedStore(home: Pid -> Slot, s: State, th: Tid, act: Act, s': State, r: Reg)
    requires Inv(home, s) && th in s.threads && s.threads[th].MStore? && StoreStep(home, s, s.threads[th], s')
    ensures Moved(s, th, act, s', r)
  {
    hide Inv, StoreStep, SwappedStatus, Moves;
    var pc := s.threads[th];
    if pc.op.Add? { Flies(home, s, th); }
    if pc.op.pid in s.table { LiveBinding(home, s, pc.op.pid); }
    StoresStatus(home, s, pc, s');
    StoreStatus(s, pc, th, r);
  }

  // The chain in the hands of a mutator that is about to retire it.
  lemma PushReady(home: Pid -> Slot, s: State, th: Tid)
    requires Inv(home, s) && th in s.threads && s.threads[th].MPush?
    ensures var pc := s.threads[th];
            && pc.prevTok.Some? && pc.prev != NULL
            && Fits(Entry(pc.prev, pc.fin, pc.op.pid, pc.prevTok.value), s.gens, Unlinked)
            && GenOk(home, s.gens[pc.prevTok.value]) && HeapOk(s.heap, s.gens) && GensOk(home, s.gens)
  {
    RetireFacts(home, s, th);
    hide HeapOk, SlotsOk, TableOk, StatusOk, ThreadsOk, CountOk, FlightOk, WatchedOk, StageOk, ListOk, StoreReady;
    assert Holder(s.threads, s.lock) == s.threads[th];
    assert GenOk(home, s.gens[s.threads[th].prevTok.value]);
  }

  lemma PrevDies(home: Pid -> Slot, s: State, th: Tid)
    requires Inv(home, s) && th in s.threads && s.threads[th].MPush?
    ensures s.threads[th].prevTok.Some? && s.threads[th].prevTok.value < |s.gens|
    ensures var t := s.threads[th].prevTok.value;
            FinReg(s.gens[t]).Some? ==> Get(s.status, FinReg(s.gens[t]).value) == Some(Dying(t))
  {
    PushReady(home, s, th);
    hide GensOk, HeapOk, SlotsOk, TableOk, ThreadsOk, CountOk, LockOk, FlightOk, HolderOk, WatchedOk;
    var g := s.gens[s.threads[th].prevTok.value];
    assert FinReg(g).Some? ==> Owes(g);
  }

  lemma PushStatus(s: State, pc: PC, act: Act, s': State)
    requires pc.MPush? && PushStep(s, pc, act, s') && pc.prevTok.Some? && pc.prevTok.value < |s.gens|
    ensures s'.status == if act.ok then s.status else Mark(s.status, FinReg(s.gens[pc.prevTok.value]), Lost)
  {
    hide SetStage, Mark, FinReg;
  }

  lemma MovedPush(home: Pid -> Slot, s: State, th: Tid, act: Act, s': State, r: Reg)
    requires Inv(home, s) && th in s.threads && s.threads[th].MPush? && PushStep(s, s.threads[th], act, s')
    ensures Moved(s, th, act, s', r)
  {
    hide Inv, FinReg;
    PrevDies(home, s, th);
    PushStatus(s, s.threads[th], act, s');
    assert act.Tau?;
    hide PushStep;
  }

  lemma FreeStatus(s: State, pc: PC, s': State)
    requires pc.Freeing? && FreeStep(s, pc, s')
    ensures if pc.work == [] || pc.work[0].head == NULL then s'.status == s.status
            else var e := pc.work[0];
                 && e.head in s.heap
                 && s'.status == if e.finOne && s.heap[e.head].pid == e.finPid
                                 then s.status[s.heap[e.head].reg := Finalized] else s.status
  {
    hide SetStage;
  }

  lemma MovedFree(home: Pid -> Slot, s: State, th: Tid, act: Act, s': State, r: Reg)
    requires Inv(home, s) && th in s.threads && s.threads[th].Freeing? && FreeStep(s, s.threads[th], s')
    ensures Moved(s, th, act, s', r)
  {
    hide Inv, FreeStep, Fits, GenOk, NodeOk, StatusOk;
    FreeStatus(s, s.threads[th], s');
    if s.threads[th].work != [] {
      FreeingNode(home, s, th);
      var e := s.threads[th].work[0];
      if e.head != NULL { FreedIsDying(home, s.heap, s.table, s.gens, s.status, s.log, e); }
    }
  }

  lemma MovedOther(home: Pid -> Slot, s: State, th: Tid, act: Act, pc: PC, s': State, r: Reg)
    requires Effect(home, s, th, act, pc, s') && th in s.threads && s.threads[th] == pc
    requires !(pc.Idle? || pc.MPage? || pc.MLoad? || pc.MStore? || pc.MPush? || pc.Freeing?)
    ensures Moved(s, th, act, s', r)
  {
    assert s'.status == s.status by { hide Moved; }
  }

  lemma CopyStatus(home: Pid -> Slot, s: State, op: Op, act: Act, s': State)
    requires CopyStep(home, s, op, act, s')
    ensures s'.status == s.status || s'.status == Reset(s.status, op, Failed)
  {
    hide Built, Reads, Rebuilt, GivesUp, Reset;
  }

  lemma PageStatus(home: Pid -> Slot, s: State, op: Op, act: Act, s': State)
    requires PageStep(home, s, op, act, s')
    ensures s'.status == s.status || s'.status == Reset(s.status, op, Failed)
  {
    hide Reset;
  }

  // A registration is in flight, then failed for good or live, then dying, then finalized or lost for good; and it
  // is lost by exactly one kind of step.
  lemma StatusMoves(home: Pid -> Slot, s: State, th: Tid, act: Act, s': State, r: Reg)
    requires Inv(home, s) && Next(home, s, th, act, s')
    ensures Moved(s, th, act, s', r)
  {
    hide NextPC, Apply, CopyStep, PageStep, BeginStep, PushStep, FreeStep, StoreStep, RetireStep, Inv, Moved, Reset;
    var pc := s.threads[th];
    if pc.Idle? {
      MovedBegin(s, th, act, s', r);
    } else if pc.MPage? || pc.MLoad? {
      if pc.op.Add? { Flies(home, s, th); }
      if pc.MPage? { PageStatus(home, s, pc.op, act, s'); } else { CopyStatus(home, s, pc.op, act, s'); }
      MovedReset(s, th, act, s', r);
    } else if pc.MStore? {
      MovedStore(home, s, th, act, s', r);
    } else if pc.MPush? {
      MovedPush(home, s, th, act, s', r);
    } else if pc.Freeing? {
      MovedFree(home, s, th, act, s', r);
    } else {
      hide Effect;
      MovedOther(home, s, th, act, pc, s', r);
    }
  }

  // ---------- in a run ----------

  ghost predicate Has(s: State, r: Reg) {
    exists pid :: pid in s.table && s.table[pid] == r
  }

  // The registration has been in the table.
  ghost predicate Bound(states: seq<State>, n: nat, r: Reg)
    requires n < |states|
  {
    exists i :: 0 <= i <= n && Has(states[i], r)
  }

  // Step i finds no memory for the retired node of a chain that is to finalize r: `finalize_one` is set, and the
  // chain binds the id to r.
  ghost predicate ShortFor(states: seq<State>, acts: seq<(Tid, Act)>, i: nat, r: Reg)
    requires i < |acts| < |states|
  {
    && Short(states, acts, acts[i].0, i)
    && var pc := states[i].threads[acts[i].0];
       pc.fin && Finds(states[i].heap, pc.prev, pc.op.pid, Some(r))
  }

  ghost predicate LostBy(states: seq<State>, acts: seq<(Tid, Act)>, n: nat, r: Reg)
    requires n <= |acts| < |states|
  {
    exists i :: 0 <= i < n && ShortFor(states, acts, i, r)
  }

  // The old chain as memory has it.
  lemma PrevReads(home: Pid -> Slot, s: State, th: Tid)
    requires Inv(home, s) && th in s.threads && s.threads[th].MPush?
    ensures var pc := s.threads[th];
            && pc.prevTok.Some? && pc.prevTok.value < |s.gens|
            && Reads(s.heap, pc.prev, s.gens[pc.prevTok.value].pairs)
            && NULL !in s.heap
  {
    PushReady(home, s, th);
    hide Inv;
    var t := s.threads[th].prevTok.value;
    ReadsGen(home, s, t, 0);
    assert s.gens[t].pairs[0..] == s.gens[t].pairs;
    NullFree(s.heap, s.gens);
  }

  lemma FinFound(home: Pid -> Slot, s: State, th: Tid)
    requires Inv(home, s) && th in s.threads && s.threads[th].MPush?
    ensures var pc := s.threads[th];
            && pc.prevTok.Some? && pc.prevTok.value < |s.gens|
            && FinReg(s.gens[pc.prevTok.value])
               == if pc.fin then Find(s.gens[pc.prevTok.value].pairs, pc.op.pid) else None
  {
    PushReady(home, s, th);
    hide Inv;
    var g := s.gens[s.threads[th].prevTok.value];
    if g.fin.Some? { FindAt(g.pairs, g.fin.value); }
  }

  // The registration a push would lose, told from memory.
  lemma LosesFinds(home: Pid -> Slot, s: State, th: Tid, act: Act, r: Reg)
    requires Inv(home, s) && th in s.threads && s.threads[th].MPush? && act.Tau? && !act.ok
    ensures var pc := s.threads[th];
            Loses(s, th, act, r) <==> pc.fin && Finds(s.heap, pc.prev, pc.op.pid, Some(r))
  {
    hide Inv, FinReg, Reads, Find;
    PrevReads(home, s, th);
    FinFound(home, s, th);
    var pc := s.threads[th];
    var pairs := s.gens[pc.prevTok.value].pairs;
    if Finds(s.heap, pc.prev, pc.op.pid, Some(r)) {
      var seen :| Reads(s.heap, pc.prev, seen) && Find(seen, pc.op.pid) == Some(r);
      ReadsUnique(s.heap, pc.prev, seen, pairs);
    }
  }

  lemma LosesShort(home: Pid -> Slot, states: seq<State>, acts: seq<(Tid, Act)>, i: nat, r: Reg)
    requires Run(home, states, acts) && i < |acts|
    ensures Loses(states[i], acts[i].0, acts[i].1, r) <==> ShortFor(states, acts, i, r)
  {
    hide Next, Init, Finds, Inv;
    RunInv(home, states, acts, i);
    hide Run;
    if Short(states, acts, acts[i].0, i) {
      LosesFinds(home, states[i], acts[i].0, acts[i].1, r);
    }
  }

  predicate Settled(st: Option<Status>) {
    st.Some? && !st.value.InFlight? && !st.value.Failed?
  }

  // Live and in the table are the same.
  lemma LiveHas(home: Pid -> Slot, s: State, r: Reg)
    requires Inv(home, s)
    ensures r in s.status && s.status[r].Live? <==> Has(s, r)
  {
    hide GensOk, HeapOk, SlotsOk, TableOk, ThreadsOk, CountOk, LockOk, FlightOk, HolderOk, WatchedOk, Owes, FinReg;
    if r in s.status && s.status[r].Live? {
      assert Accounted(s.table, s.gens, s.log, r, s.status[r]);
    }
  }

  lemma InitFate(home: Pid -> Slot, states: seq<State>, acts: seq<(Tid, Act)>, r: Reg)
    requires Run(home, states, acts)
    ensures Get(states[0].status, r).None? && !Has(states[0], r)
  {
    hide Next;
  }

  // Where every registration stands, told from the history of the table and from the failed allocations: it is
  // published or past that if and only if it has been in the table, and lost if and only if the allocation for the
  // chain that was to finalize it failed.
  lemma {:induction false} Fate(home: Pid -> Slot, states: seq<State>, acts: seq<(Tid, Act)>, n: nat, r: Reg)
    requires Run(home, states, acts) && n < |states|
    ensures Settled(Get(states[n].status, r)) <==> Bound(states, n, r)
    ensures Get(states[n].status, r) == Some(Lost) <==> LostBy(states, acts, n, r)
  {
    hide Next, Init, Inv, ShortFor, Has, Loses;
    if n == 0 {
      InitFate(home, states, acts, r);
    } else {
      var s, th, act, s' := states[n - 1], acts[n - 1].0, acts[n - 1].1, states[n];
      Fate(home, states, acts, n - 1, r);
      RunInv(home, states, acts, n - 1);
      RunInv(home, states, acts, n);
      assert Next(home, s, th, act, s');
      StatusMoves(home, s, th, act, s', r);
      LosesShort(home, states, acts, n - 1, r);
      LiveHas(home, s', r);
      hide Run;
      LostNext(states, acts, n, r);
      BoundNext(states, n, r);
    }
  }

  lemma LostNext(states: seq<State>, acts: seq<(Tid, Act)>, n: nat, r: Reg)
    requires 0 < n <= |acts| < |states|
    ensures LostBy(states, acts, n, r) <==> LostBy(states, acts, n - 1, r) || ShortFor(states, acts, n - 1, r)
  {
    hide ShortFor;
  }

  lemma BoundNext(states: seq<State>, n: nat, r: Reg)
    requires 0 < n < |states|
    ensures Bound(states, n, r) <==> Bound(states, n - 1, r) || Has(states[n], r)
  {
    hide Has;
  }

  // ---------- for good ----------

  // A lost registration is not finalized in any later state.
  lemma NeverFinalized(home: Pid -> Slot, states: seq<State>, acts: seq<(Tid, Act)>, i: nat, n: nat, r: Reg)
    requires Run(home, states, acts) && i < n < |states| && ShortFor(states, acts, i, r)
    ensures Get(states[n].status, r) == Some(Lost) && r !in states[n].log
  {
    hide Run, ShortFor, Inv;
    assert |states| == |acts| + 1 by { RunLength(home, states, acts); }
    assert LostBy(states, acts, n, r);
    Fate(home, states, acts, n, r);
    RunInv(home, states, acts, n);
    LostUnlogged(home, states[n], r);
  }

  lemma RunLength(home: Pid -> Slot, states: seq<State>, acts: seq<(Tid, Act)>)
    requires Run(home, states, acts)
    ensures |states| == |acts| + 1
  {
    hide Next, Init;
  }

  lemma LostUnlogged(home: Pid -> Slot, s: State, r: Reg)
    requires Inv(home, s) && Get(s.status, r) == Some(Lost)
    ensures r !in s.log
  {
    hide GensOk, HeapOk, SlotsOk, TableOk, ThreadsOk, CountOk, LockOk, FlightOk, HolderOk, WatchedOk, Owes, FinReg;
  }

  lemma {:induction false} GensKept(home: Pid -> Slot, states: seq<State>, acts: seq<(Tid, Act)>, i: nat, n: nat)
    requires Run(home, states, acts) && i <= n < |states|
    ensures SamePairs(states[i].gens, states[n].gens)
    decreases n
  {
    hide Next, Init;
    if i < n {
      GensKept(home, states, acts, i, n - 1);
      assert Next(home, states[n - 1], acts[n - 1].0, acts[n - 1].1, states[n]);
      hide Run;
      PairsKept(home, states[n - 1], acts[n - 1].0, acts[n - 1].1, states[n]);
    }
  }

  // Something leads to the chain at p: a slot, a retired node, or the list of a thread that is freeing.
  ghost predicate Points(s: State, p: Addr) {
    || (exists k :: k in s.slots && s.slots[k] == p)
    || (exists j :: 0 <= j < |s.retired| && s.retired[j].head == p)
    || (exists th, j :: th in s.threads && s.threads[th].Freeing? && 0 <= j < |s.threads[th].work| &&
                        s.threads[th].work[j].head == p)
  }

  // The first node of a generation is the first node still there of no other generation.
  lemma OwnHead(home: Pid -> Slot, s: State, t: Token, u: Token)
    requires GensOk(home, s.gens) && HeapOk(s.heap, s.gens) && t < |s.gens| && u < |s.gens|
    requires s.gens[t].stage == Leaked && s.gens[t].addrs != []
    requires PtrAt(s.gens[u].addrs, s.gens[u].freed) == s.gens[t].addrs[0]
    ensures t == u
  {
    var g, h := s.gens[t], s.gens[u];
    assert GenOk(home, g) && NodeOk(s.heap, g, t, 0);
    if h.freed < |h.addrs| { assert NodeOk(s.heap, h, u, h.freed); }
  }

  lemma Orphaned(home: Pid -> Slot, s: State, t: Token)
    requires Inv(home, s) && LeakedAt(s.gens, t) && s.gens[t].addrs != []
    ensures !Points(s, s.gens[t].addrs[0])
  {
    hide TableOk, StatusOk, ThreadsOk, CountOk, FlightOk, WatchedOk, GensOk, HeapOk, StageOk, StoreReady, RetireReady;
    var p := s.gens[t].addrs[0];
    forall k | k in s.slots ensures s.slots[k] != p {
      if s.slots[k] == p {
        assert s.gens[s.cur[k]].freed == 0 by { NoneFreed(home, s.gens, s.cur[k]); }
        OwnHead(home, s, t, s.cur[k]);
      }
    }
    forall j | 0 <= j < |s.retired| ensures s.retired[j].head != p {
      assert Fits(s.retired[j], s.gens, Retired);
      if s.retired[j].head == p { OwnHead(home, s, t, s.retired[j].tok); }
    }
    forall th, j | th in s.threads && s.threads[th].Freeing? && 0 <= j < |s.threads[th].work|
      ensures s.threads[th].work[j].head != p
    {
      assert Holder(s.threads, s.lock) == s.threads[th];
      assert Fits(s.threads[th].work[j], s.gens, Doomed);
      if s.threads[th].work[j].head == p { OwnHead(home, s, t, s.threads[th].work[j].tok); }
    }
  }

  lemma NoneFreed(home: Pid -> Slot, gens: seq<Gen>, t: Token)
    requires GensOk(home, gens) && t < |gens| && gens[t].stage in {Published, Leaked}
    ensures gens[t].freed == 0
  {
    assert GenOk(home, gens[t]);
  }

  // The generation that a short step leaks, from there on.
  lemma ShortChain(home: Pid -> Slot, states: seq<State>, acts: seq<(Tid, Act)>, th: Tid, i: nat, n: nat)
    requires Run(home, states, acts) && i < n < |states| && Short(states, acts, th, i)
    ensures var pc := states[i].threads[th];
            && pc.prevTok.Some? && pc.prevTok.value < |states[i].gens| && LeakedAt(states[n].gens, pc.prevTok.value)
            && var g, h := states[i].gens[pc.prevTok.value], states[n].gens[pc.prevTok.value];
               && h.pairs == g.pairs && h.addrs == g.addrs
               && g.addrs != [] && |g.pairs| == |g.addrs| && pc.prev == g.addrs[0]
  {
    hide Next, Init, Inv;
    RunInv(home, states, acts, i);
    assert Next(home, states[i], th, acts[i].1, states[i + 1]);
    ShortLeaks(home, states[i], th, acts[i].1, states[i + 1]);
    PushReady(home, states[i], th);
    LeakLasts(home, states, acts, states[i].threads[th].prevTok.value, i + 1, n);
    GensKept(home, states, acts, i, n);
  }

  // The chain whose retired node found no memory stays in memory, as it was, in every later state, and nothing
  // leads to it any more.
  lemma NeverFreed(home: Pid -> Slot, states: seq<State>, acts: seq<(Tid, Act)>, th: Tid, i: nat, n: nat, seen: Pairs)
    requires Run(home, states, acts) && i < n < |states| && Short(states, acts, th, i)
    requires Reads(states[i].heap, states[i].threads[th].prev, seen)
    ensures seen != [] && Reads(states[n].heap, states[i].threads[th].prev, seen)
    ensures !Points(states[n], states[i].threads[th].prev)
  {
    hide Next, Init, Inv, Reads, Points;
    ShortChain(home, states, acts, th, i, n);
    RunInv(home, states, acts, i);
    RunInv(home, states, acts, n);
    hide Run;
    var pc := states[i].threads[th];
    var t := pc.prevTok.value;
    PrevReads(home, states[i], th);
    ReadsUnique(states[i].heap, pc.prev, seen, states[i].gens[t].pairs);
    Orphaned(home, states[n], t);
    LeakReads(home, states[n], t);
  }

  lemma LeakReads(home: Pid -> Slot, s: State, t: Token)
    requires Inv(home, s) && LeakedAt(s.gens, t) && s.gens[t].addrs != []
    ensures Reads(s.heap, s.gens[t].addrs[0], s.gens[t].pairs)
  {
    hide SlotsOk, TableOk, StatusOk, ThreadsOk, CountOk, LockOk, FlightOk, HolderOk, WatchedOk, HeapOk, Reads, GensOk;
    NoneFreed(home, s.gens, t);
    ReadsGen(home, s, t, 0);
    assert s.gens[t].pairs[0..] == s.gens[t].pairs;
  }

  // ---------- after `destroy` ----------

  lemma LeakedHead(home: Pid -> Slot, s: State, t: Token)
    requires Inv(home, s) && LeakedAt(s.gens, t) && s.gens[t].addrs != []
    ensures LeakedNode(s, s.gens[t].addrs[0])
  {
    hide SlotsOk, TableOk, StatusOk, ThreadsOk, CountOk, LockOk, FlightOk, HolderOk, WatchedOk;
    assert GenOk(home, s.gens[t]) && NodeOk(s.heap, s.gens[t], t, 0);
  }

  // A run has leaked a node if and only if some allocation of a retired node failed.
  lemma LeaksIffShort(home: Pid -> Slot, states: seq<State>, acts: seq<(Tid, Act)>)
    requires Run(home, states, acts)
    ensures NeverShort(states, acts) <==> forall a :: !LeakedNode(states[|acts|], a)
  {
    var last := states[|acts|];
    if NeverShort(states, acts) {
      TightIffNeverShort(home, states, acts);
    } else {
      var i := ShortStep(home, states, acts);
      hide Run, Short, NeverShort, Inv, LeakedNode;
      ShortChain(home, states, acts, acts[i].0, i, |acts|);
      RunInv(home, states, acts, |acts|);
      LeakedHead(home, last, states[i].threads[acts[i].0].prevTok.value);
    }
  }

  lemma ShortStep(home: Pid -> Slot, states: seq<State>, acts: seq<(Tid, Act)>) returns (i: nat)
    requires Run(home, states, acts) && !NeverShort(states, acts)
    ensures i < |acts| && Short(states, acts, acts[i].0, i)
  {
    hide Next, Init;
    i :| 0 <= i < |acts| && acts[i].0 in states[i].threads && states[i].threads[acts[i].0].MPush?
         && !(acts[i].1.Tau? && acts[i].1.ok);
    PushIsTau(home, states[i], acts[i].0, acts[i].1, states[i + 1]);
  }

  lemma SuppliedLosesNone(states: seq<State>, acts: seq<(Tid, Act)>, n: nat, r: Reg)
    requires NeverShort(states, acts) && n <= |acts|
    ensures !LostBy(states, acts, n, r)
  {
    hide Finds;
  }

  // A whole life of a route table. Memory is empty at the end if and only if every retired node could be allocated;
  // and of the registrations that were ever in the table exactly those are finalized, once each, whose chain was not
  // lost to a failed allocation.
  method Lifetime(home: Pid -> Slot, states: seq<State>, acts: seq<(Tid, Act)>)
    returns (heap: map<Addr, Node>, log: seq<Reg>)
    requires Run(home, states, acts) && Quiescent(states[|acts|])
    ensures heap == map[] <==> NeverShort(states, acts)
    ensures forall r :: r in log <==> Bound(states, |acts|, r) && !LostBy(states, acts, |acts|, r)
    ensures forall i, j :: 0 <= i < j < |log| ==> log[i] != log[j]
    ensures heap == map[] ==> forall r :: r in log <==> Bound(states, |acts|, r)
  {
    hide Inv, LeakedNode, Bound, LostBy, NeverShort, Quiescent, Tight;
    var s := states[|acts|];
    RunInv(home, states, acts, |acts|);
    heap, log := Destroy(home, s);
    LeaksIffShort(home, states, acts);
    forall r ensures r in log <==> Bound(states, |acts|, r) && !LostBy(states, acts, |acts|, r) {
      Fate(home, states, acts, |acts|, r);
      if r in s.status { IdleStatus(home, s, r); }
    }
    if heap == map[] {
      forall r ensures !LostBy(states, acts, |acts|, r) { SuppliedLosesNone(states, acts, |acts|, r); }
    }
  }
}
