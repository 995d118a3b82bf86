/** What the route table guarantees in every run. */
module RouteTheorems {
  import opened Options
  import opened RouteTable
  import opened RouteInvariant
  import opened RouteSteps
  import opened RouteMutation

  lemma {:induction false} RunInv(home: Pid -> Slot, states: seq<State>, acts: seq<(Tid, Act)>, i: nat)
    requires Run(home, states, acts) && i < |states|
    ensures Inv(home, states[i])
  {
    hide Inv, Init, Next;
    if i == 0 {
      InitInv(home, states[0]);
    } else {
      RunInv(home, states, acts, i - 1);
      NextInv(home, states[i - 1], acts[i - 1].0, acts[i - 1].1, states[i]);
    }
  }

  ghost predicate Reachable(home: Pid -> Slot, s: State) {
    exists states, acts :: Run(home, states, acts) && s == states[|acts|]
  }

  lemma ReachableInv(home: Pid -> Slot, s: State)
    requires Reachable(home, s)
    ensures Inv(home, s)
  {
    hide Inv;
    var states, acts :| Run(home, states, acts) && s == states[|acts|];
    RunInv(home, states, acts, |acts|);
  }

  // ---------- memory safety ----------

  // The node a thread is about to load or free is live, in every interleaving.  A reader's chain is
  // published, or out of the table while the reader count is positive.
  lemma NeverTouchesFreed(home: Pid -> Slot, s: State, th: Tid)
    requires Reachable(home, s) && th in s.threads
    ensures match s.threads[th]
            case RWalk(_, p, t, _, _) =>
              && p in s.heap && s.heap[p].tok == t < |s.gens|
              && s.gens[t].stage in {Published, Unlinked, Retired, Leaked} && s.readers > 0
            case Freeing(work, _) => work != [] && work[0].head != NULL ==> work[0].head in s.heap
            case MLoad(op) => exists seen :: Reads(s.heap, SlotPtr(s.slots, home(op.pid)), seen)
            case _ => true
  {
    hide Reachable, Inv;
    ReachableInv(home, s);
    match s.threads[th]
    case RWalk(_, _, _, _, _) => ReaderSafe(home, s, th);
    case Freeing(work, _) => if work != [] { NotYetFreed(home, s, th); }
    case MLoad(op) => SlotReadable(home, s, home(op.pid));
    case _ =>
  }

  lemma ReaderSafe(home: Pid -> Slot, s: State, th: Tid)
    requires Inv(home, s) && th in s.threads && s.threads[th].RWalk?
    ensures var pc := s.threads[th];
            && pc.p in s.heap && s.heap[pc.p].tok == pc.rtok < |s.gens|
            && Visible(s.gens[pc.rtok].stage) && s.readers > 0
  {
    hide SlotsOk, TableOk, StatusOk, LockOk, FlightOk, HolderOk, WatchedOk;
    var pc := s.threads[th];
    assert ThreadOk(pc, s.gens) && GenOk(home, s.gens[pc.rtok]) && NodeOk(s.heap, s.gens[pc.rtok], pc.rtok, pc.i);
    assert th in Counted(s.threads);
  }

  // Memory always holds a well-formed chain behind a slot: its current generation.
  lemma SlotReadable(home: Pid -> Slot, s: State, k: Slot)
    requires Inv(home, s)
    ensures Reads(s.heap, SlotPtr(s.slots, k), CurPairs(s.cur, s.gens, k))
  {
    hide TableOk, StatusOk, ThreadsOk, CountOk, LockOk, FlightOk, HolderOk, WatchedOk;
    if k in s.cur {
      assert GenOk(home, s.gens[s.cur[k]]);
      ReadsGen(home, s, s.cur[k], 0);
      assert s.gens[s.cur[k]].pairs[0..] == s.gens[s.cur[k]].pairs;
    }
  }

  // ---------- finalizers ----------

  // No finalizer runs twice, none runs for a registration still in the table, and the
  // registrations split into disjoint groups that lose none.
  lemma FinalizedOnce(home: Pid -> Slot, s: State)
    requires Reachable(home, s)
    ensures forall i, j :: 0 <= i < j < |s.log| ==> s.log[i] != s.log[j]
    ensures forall pid :: pid in s.table ==> s.table[pid] !in s.log
    ensures forall p, q :: p in s.table && q in s.table && p != q ==> s.table[p] != s.table[q]
    ensures forall r :: r in s.log <==> r in s.status && s.status[r] == Finalized
    ensures forall r :: r in s.status && s.status[r].Live? ==>
              s.status[r].pid in s.table && s.table[s.status[r].pid] == r
  {
    hide Reachable;
    ReachableInv(home, s);
    hide GensOk, HeapOk, SlotsOk, TableOk, ThreadsOk, CountOk, LockOk, FlightOk, HolderOk, WatchedOk, Owes, FinReg;
    assert forall r :: r in s.status ==> Accounted(s.table, s.gens, s.log, r, s.status[r]);
  }

  // ---------- refinement of a map ----------

  // Following the chain at `p` in memory finds `r` for `pid`.
  ghost predicate Finds(heap: map<Addr, Node>, p: Addr, pid: Pid, r: Option<Reg>) {
    exists seen :: Reads(heap, p, seen) && Find(seen, pid) == r
  }

  // Memory holds, behind every slot, exactly the bindings of the abstract map.
  lemma TableDenoted(home: Pid -> Slot, s: State, pid: Pid)
    requires Inv(home, s)
    ensures Finds(s.heap, SlotPtr(s.slots, home(pid)), pid, Get(s.table, pid))
  {
    hide GensOk, HeapOk, SlotsOk, StatusOk, ThreadsOk, CountOk, LockOk, FlightOk, HolderOk, WatchedOk, CurPairs, Find;
    SlotReadable(home, s, home(pid));
    assert Get(s.table, pid) == Find(CurPairs(s.cur, s.gens, home(pid)), pid);
  }

  // A remove that reaches its store removes a binding that was there.
  lemma StoredRemove(home: Pid -> Slot, s: State, th: Tid)
    requires Inv(home, s) && th in s.threads && s.threads[th].MStore? && s.threads[th].op.Remove?
    ensures s.threads[th].op.pid in s.table
  {
    StoreReadyHolds(home, s, th);
    hide GensOk, HeapOk, StatusOk, ThreadsOk, CountOk, LockOk, FlightOk, HolderOk, WatchedOk, SlotsOk, CurPairs, Find;
    var pid := s.threads[th].op.pid;
    assert Get(s.table, pid) == Find(CurPairs(s.cur, s.gens, home(pid)), pid);
  }

  // What a thread will report, once that is settled.
  function Reports(pc: PC): Option<Outcome> {
    match pc
    case RLeave(o) => Some(o)
    case ROwe(o) => Some(o)
    case RFree(o) => Some(o)
    case Freeing(_, o) => Some(o)
    case Unlock(o) => Some(o)
    case Done(o) => Some(o)
    case _ => None
  }

  // The lookup of `pid` by this thread is past its linearization point, where the map gave `lin`.
  predicate PastLookup(pc: PC, pid: Pid, lin: Option<Reg>) {
    || (pc.RWalk? && pc.pid == pid && pc.lin == lin)
    || (Reports(pc).Some? && Reports(pc).value.Looked? && Reports(pc).value.pid == pid && Reports(pc).value.lin == lin)
  }

  // Thread th is inside one operation from state m to state n.
  ghost predicate Within(states: seq<State>, th: Tid, m: nat, n: nat) {
    m <= n < |states| && forall i :: m <= i <= n ==> th in states[i].threads && !states[i].threads[th].Idle?
  }

  lemma LookupBack(home: Pid -> Slot, s: State, th: Tid, act: Act, s': State, pid: Pid, lin: Option<Reg>)
    requires Next(home, s, th, act, s') && PastLookup(s'.threads[th], pid, lin)
    ensures || (s.threads[th] in {RPage(pid), RSlot(pid)} && Get(s.table, pid) == lin)
            || PastLookup(s.threads[th], pid, lin)
  {
    hide Effect, Find;
    assert s'.threads[th] == NextPC(home, s, act, s.threads[th]);
  }

  // In state m, inside the lookup, the map gives `lin`.
  ghost predicate LookedAt(states: seq<State>, th: Tid, pid: Pid, lin: Option<Reg>, m: nat, n: nat) {
    m < n && Within(states, th, m, n) && Get(states[m].table, pid) == lin
  }

  // In every run a lookup's result is the value of the map at some state between its call and its return.
  lemma {:induction false} LookupLinearizes(home: Pid -> Slot, states: seq<State>, acts: seq<(Tid, Act)>, n: nat,
                                            th: Tid, pid: Pid, lin: Option<Reg>)
    requires Run(home, states, acts) && n < |states| && th in states[n].threads
    requires PastLookup(states[n].threads[th], pid, lin)
    ensures exists m: nat :: LookedAt(states, th, pid, lin, m, n)
    ensures Reports(states[n].threads[th]).Some? ==> Reports(states[n].threads[th]).value.res == lin
  {
    hide Next, PastLookup;
    assert Reports(states[n].threads[th]).Some? ==> Reports(states[n].threads[th]).value.res == lin by {
      RunInv(home, states, acts, n);
      Reported(home, states[n], th, pid, lin);
    }
    assert n > 0 by { NotIdle(states[n].threads[th], pid, lin); }
    var s := states[n - 1];
    assert Next(home, s, acts[n - 1].0, acts[n - 1].1, states[n]);
    OthersStay(home, s, acts[n - 1].0, acts[n - 1].1, states[n], th);
    NotIdle(states[n].threads[th], pid, lin);
    if acts[n - 1].0 == th { LookupBack(home, s, th, acts[n - 1].1, states[n], pid, lin); }
    if PastLookup(s.threads[th], pid, lin) {
      LookupLinearizes(home, states, acts, n - 1, th, pid, lin);
      var m: nat :| LookedAt(states, th, pid, lin, m, n - 1);
      assert LookedAt(states, th, pid, lin, m, n);
    } else {
      assert LookedAt(states, th, pid, lin, n - 1, n);
    }
  }

  lemma NotIdle(pc: PC, pid: Pid, lin: Option<Reg>)
    requires PastLookup(pc, pid, lin)
    ensures !pc.Idle?
  {
  }

  lemma Reported(home: Pid -> Slot, s: State, th: Tid, pid: Pid, lin: Option<Reg>)
    requires Inv(home, s) && th in s.threads && PastLookup(s.threads[th], pid, lin)
    ensures Reports(s.threads[th]).Some? ==>
              Reports(s.threads[th]).value.Looked? && Reports(s.threads[th]).value.res == lin
  {
    hide GensOk, HeapOk, SlotsOk, TableOk, StatusOk, CountOk, LockOk, FlightOk, HolderOk, WatchedOk;
    assert ThreadOk(s.threads[th], s.gens);
  }

  lemma OthersStay(home: Pid -> Slot, s: State, th: Tid, act: Act, s': State, u: Tid)
    requires Next(home, s, th, act, s') && u in s'.threads
    ensures u in s.threads && (u != th ==> s'.threads[u] == s.threads[u])
    ensures s'.table == if s.threads[th].MStore? then Apply(s.threads[th].op, s.table) else s.table
  {
    hide Effect, NextPC;
  }

  // ---------- reclamation ----------

  // A non-empty retired list always has someone who will still look at it.
  lemma NotStranded(home: Pid -> Slot, s: State)
    requires Reachable(home, s) && s.retired != []
    ensures || s.readers > 0
            || (exists th :: th in s.threads &&
                             (s.threads[th].MRecheck? || s.threads[th].ROwe? || s.threads[th].RFree?))
  {
    hide Reachable;
    ReachableInv(home, s);
    hide GensOk, HeapOk, SlotsOk, TableOk, StatusOk, ThreadsOk, CountOk, LockOk, FlightOk, HolderOk;
    var h := Holder(s.threads, s.lock);
    if h.MRecheck? { assert s.threads[s.lock.value].MRecheck?; }
  }

  ghost predicate Quiescent(s: State) {
    forall th :: th in s.threads ==> s.threads[th].Idle?
  }

  // When no call is running, everything that was unlinked has been reclaimed: memory holds the
  // published chains and nothing else, except what a failed allocation leaked.
  lemma QuiescentClean(home: Pid -> Slot, s: State)
    requires Inv(home, s) && Quiescent(s)
    ensures s.retired == [] && s.lock.None? && s.readers == 0
    ensures forall t :: 0 <= t < |s.gens| ==> s.gens[t].stage in {Published, Gone, Leaked}
    ensures forall a :: a in s.heap ==> s.heap[a].tok < |s.gens| && s.gens[s.heap[a].tok].stage in {Published, Leaked}
    ensures forall r :: r in s.status ==> s.status[r].Live? || s.status[r] in {Finalized, Failed, Lost}
  {
    hide Inv, GensOk, HeapOk, SlotsOk, TableOk, StatusOk, ThreadsOk, CountOk, LockOk, FlightOk, HolderOk, WatchedOk;
    AllIdle(home, s);
    forall t | 0 <= t < |s.gens| ensures s.gens[t].stage in {Published, Gone, Leaked} { IdleStage(home, s, t); }
    forall a | a in s.heap ensures s.heap[a].tok < |s.gens| && s.gens[s.heap[a].tok].stage in {Published, Leaked} {
      IdleNode(home, s, a);
    }
    forall r | r in s.status ensures s.status[r].Live? || s.status[r] in {Finalized, Failed, Lost} {
      IdleStatus(home, s, r);
    }
  }

  lemma AllIdle(home: Pid -> Slot, s: State)
    requires Inv(home, s) && Quiescent(s)
    ensures s.lock.None? && s.readers == 0 && s.retired == [] && Holder(s.threads, s.lock) == Idle
  {
    hide GensOk, HeapOk, SlotsOk, TableOk, StatusOk, ThreadsOk, FlightOk, HolderOk;
    assert Counted(s.threads) == {};
    assert s.lock.None?;
  }

  lemma IdleStage(home: Pid -> Slot, s: State, t: Token)
    requires Inv(home, s) && Quiescent(s) && t < |s.gens|
    ensures s.gens[t].stage in {Published, Gone, Leaked}
  {
    AllIdle(home, s);
    hide GensOk, HeapOk, SlotsOk, TableOk, StatusOk, ThreadsOk, CountOk, LockOk, FlightOk, WatchedOk, Quiescent;
    assert ListOk([], s.gens, Retired) && ListOk([], s.gens, Doomed) && StageOk(Idle, s.gens);
    assert s.gens[t].stage in {Retired, Doomed} ==> Lists([], t);
  }

  lemma IdleNode(home: Pid -> Slot, s: State, a: Addr)
    requires Inv(home, s) && Quiescent(s) && a in s.heap
    ensures s.heap[a].tok < |s.gens| && s.gens[s.heap[a].tok].stage in {Published, Leaked}
  {
    hide SlotsOk, TableOk, StatusOk, ThreadsOk, CountOk, LockOk, FlightOk, HolderOk, WatchedOk, Quiescent;
    IdleStage(home, s, s.heap[a].tok);
    assert GenOk(home, s.gens[s.heap[a].tok]);
  }

  lemma IdleStatus(home: Pid -> Slot, s: State, r: Reg)
    requires Inv(home, s) && Quiescent(s) && r in s.status
    ensures s.status[r].Live? || s.status[r] in {Finalized, Failed, Lost}
  {
    hide GensOk, HeapOk, SlotsOk, TableOk, ThreadsOk, CountOk, LockOk, HolderOk, WatchedOk;
    assert Accounted(s.table, s.gens, s.log, r, s.status[r]);
    if s.status[r].Dying? { IdleStage(home, s, s.status[r].tok); }
  }

  // ---------- pages ----------

  // A thread about to follow a page pointer, and the id whose page that is.
  function Follows(pc: PC): Option<Pid> {
    match pc
    case RSlot(pid) => Some(pid)
    case MLoad(op) => Some(op.pid)
    case MStore(op, _, _, _, _, _) => Some(op.pid)
    case _ => None
  }

  ghost predicate PagesOk(home: Pid -> Slot, s: State) {
    forall th :: th in s.threads && Follows(s.threads[th]).Some? ==> home(Follows(s.threads[th]).value).page in s.pages
  }

  lemma QuietPages(home: Pid -> Slot, s: State, op: Op, pc: PC, act: Act, s': State)
    ensures PageStep(home, s, op, act, s') || CopyStep(home, s, op, act, s') || TakeStep(s, s') ==> s'.pages == s.pages
    ensures pc.MStore? && StoreStep(home, s, pc, s') ==> s'.pages == s.pages
    ensures pc.MRetire? && RetireStep(s, pc, s') ==> s'.pages == s.pages
  {
    hide Reads, Built, Rebuilt, Find, Reset, SetStage, Swapped, SwappedStatus, DoomRetired, GivesUp;
  }

  lemma FreePages(s: State, th: Tid, pc: PC, act: Act, s': State)
    ensures BeginStep(s, th, act, s') ==> s'.pages == s.pages
    ensures pc.MPush? && PushStep(s, pc, act, s') ==> s'.pages == s.pages
    ensures pc.Freeing? && FreeStep(s, pc, s') ==> s'.pages == s.pages
  {
    hide SetStage, Mark, FinReg, Reset;
  }

  lemma PagesStay(home: Pid -> Slot, s: State, th: Tid, act: Act, s': State)
    requires Next(home, s, th, act, s')
    ensures s.pages <= s'.pages && (s.threads[th].MPageStore? ==> home(s.threads[th].op.pid).page in s'.pages)
  {
    hide NextPC, Apply, BeginStep, TakeStep, CopyStep, PageStep, StoreStep, RetireStep, PushStep, FreeStep;
    var pc := s.threads[th];
    FreePages(s, th, pc, act, s');
    QuietPages(home, s, if pc.MPage? || pc.MLoad? then pc.op else Remove(Pid(0)), pc, act, s');
  }

  // A page pointer is followed after it was found, or by the one that stored it.
  lemma FollowsNext(home: Pid -> Slot, s: State, act: Act, pc: PC)
    ensures var pid := Follows(NextPC(home, s, act, pc));
            pid.Some? ==> || home(pid.value).page in s.pages
                          || Follows(pc) == pid
                          || (pc.MPageStore? && pc.op.pid == pid.value)
  {
    hide Find, GivesUp, PrevTok, TokOf, SlotPtr, PtrAt;
  }

  lemma PagesNext(home: Pid -> Slot, s: State, th: Tid, act: Act, s': State)
    requires PagesOk(home, s) && Next(home, s, th, act, s')
    ensures PagesOk(home, s')
  {
    PagesStay(home, s, th, act, s');
    FollowsNext(home, s, act, s.threads[th]);
    assert th in s.threads && s'.threads == s.threads[th := NextPC(home, s, act, s.threads[th])] by {
      hide Effect, NextPC, Apply;
    }
    hide Next, NextPC, Follows;
  }

  // In every run a slot is loaded from or stored to only in a page that has been allocated.
  lemma {:induction false} PageAllocated(home: Pid -> Slot, states: seq<State>, acts: seq<(Tid, Act)>, i: nat)
    requires Run(home, states, acts) && i < |states|
    ensures PagesOk(home, states[i])
  {
    if i > 0 {
      hide Next, PagesOk;
      PageAllocated(home, states, acts, i - 1);
      PagesNext(home, states[i - 1], acts[i - 1].0, acts[i - 1].1, states[i]);
    }
  }
}
