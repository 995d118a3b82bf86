/** The inductive invariant of the route table, and facts about lists and counts that its proofs share. */
module RouteInvariant {
  import opened Options
  import opened RouteTable

  // ---------- the invariant ----------

  // A well-formed generation: one node per proc_id, every node in the slot of its proc_id.
  ghost predicate GenOk(home: Pid -> Slot, g: Gen) {
    && |g.addrs| == |g.pairs|
    && g.freed <= |g.addrs|
    && (g.stage !in {Doomed, Gone} ==> g.freed == 0)
    && (g.stage == Gone ==> g.freed == |g.addrs|)
    && (g.stage in {Fresh, Published} ==> g.fin.None?)
    && (g.fin.Some? ==> g.fin.value < |g.pairs|)
    && (forall i :: 0 <= i < |g.pairs| ==> home(g.pairs[i].0) == g.slot)
    && (forall i, j :: 0 <= i < j < |g.pairs| ==> g.pairs[i].0 != g.pairs[j].0)
  }

  ghost predicate GensOk(home: Pid -> Slot, gens: seq<Gen>) {
    forall t :: 0 <= t < |gens| ==> GenOk(home, gens[t])
  }

  ghost predicate NodeOk(heap: map<Addr, Node>, g: Gen, t: Token, i: nat)
    requires i < |g.addrs| == |g.pairs|
  {
    && g.addrs[i] != NULL
    && g.addrs[i] in heap
    && heap[g.addrs[i]] == Node(g.pairs[i].0, g.pairs[i].1, PtrAt(g.addrs, i + 1), t, i)
  }

  // The heap holds exactly the nodes of the generations that are not yet freed.
  ghost predicate HeapOk(heap: map<Addr, Node>, gens: seq<Gen>) {
    && (forall t :: 0 <= t < |gens| ==> |gens[t].addrs| == |gens[t].pairs|)
    && (forall t, i :: 0 <= t < |gens| && gens[t].freed <= i < |gens[t].addrs| ==> NodeOk(heap, gens[t], t, i))
    && (forall a :: a in heap ==>
          && heap[a].tok < |gens|
          && gens[heap[a].tok].freed <= heap[a].pos < |gens[heap[a].tok].addrs|
          && gens[heap[a].tok].addrs[heap[a].pos] == a)
  }

  ghost predicate SlotsOk(pages: set<Page>, slots: map<Slot, Addr>, cur: map<Slot, Token>, gens: seq<Gen>) {
    && slots.Keys == cur.Keys
    && (forall k :: k in cur ==>
          && k.page in pages
          && cur[k] < |gens|
          && gens[cur[k]].stage == Published
          && gens[cur[k]].slot == k
          && slots[k] == PtrAt(gens[cur[k]].addrs, 0))
    && (forall t :: 0 <= t < |gens| && gens[t].stage == Published ==> gens[t].slot in cur && cur[gens[t].slot] == t)
  }

  function CurPairs(cur: map<Slot, Token>, gens: seq<Gen>, k: Slot): Pairs {
    if k in cur && cur[k] < |gens| then gens[cur[k]].pairs else []
  }

  ghost predicate TableOk(home: Pid -> Slot, table: map<Pid, Reg>, cur: map<Slot, Token>, gens: seq<Gen>) {
    forall pid :: Get(table, pid) == Find(CurPairs(cur, gens, home(pid)), pid)
  }

  predicate InLimbo(g: Gen) {
    g.stage in {Unlinked, Retired, Doomed}
  }

  // The generation still has a registration to finalize.
  predicate Owes(g: Gen) {
    InLimbo(g) && FinReg(g).Some? && g.freed <= g.fin.value
  }

  // A registration with this status is where the status says it is.
  ghost predicate Accounted(table: map<Pid, Reg>, gens: seq<Gen>, log: seq<Reg>, r: Reg, st: Status) {
    match st
    case Live(pid) => pid in table && table[pid] == r
    case Dying(t) => t < |gens| && Owes(gens[t]) && FinReg(gens[t]) == Some(r)
    case Finalized => r in log
    case _ => true
  }

  ghost predicate StatusOk(table: map<Pid, Reg>, gens: seq<Gen>, status: map<Reg, Status>, log: seq<Reg>) {
    && (forall r :: r in status ==> Accounted(table, gens, log, r, status[r]))
    && (forall pid :: pid in table ==> table[pid] in status && status[table[pid]] == Live(pid))
    && (forall t :: 0 <= t < |gens| && Owes(gens[t]) ==>
          FinReg(gens[t]).value in status && status[FinReg(gens[t]).value] == Dying(t))
    && (forall i :: 0 <= i < |log| ==> log[i] in status && status[log[i]] == Finalized)
    && (forall i, j :: 0 <= i < j < |log| ==> log[i] != log[j])
  }

  predicate Visible(stage: Stage) {
    stage in {Published, Unlinked, Retired, Leaked}
  }

  predicate OutcomeOk(out: Outcome) {
    match out
    case Looked(_, res, lin) => res == lin
    case Mutated(_, rc, applied) => rc == 0 ==> applied
  }

  ghost predicate ThreadOk(pc: PC, gens: seq<Gen>) {
    match pc
    case RWalk(pid, p, t, i, lin) =>
      && t < |gens|
      && Visible(gens[t].stage)
      && i < |gens[t].addrs| == |gens[t].pairs|
      && p == gens[t].addrs[i]
      && lin == Find(gens[t].pairs[i..], pid)
    case RLeave(out) => out.Looked? && OutcomeOk(out)
    case ROwe(out) => OutcomeOk(out)
    case RFree(out) => OutcomeOk(out)
    case Freeing(_, out) => OutcomeOk(out)
    case Unlock(out) => OutcomeOk(out)
    case Done(out) => OutcomeOk(out)
    case _ => true
  }

  ghost predicate ThreadsOk(threads: map<Tid, PC>, gens: seq<Gen>) {
    forall th :: th in threads ==> ThreadOk(threads[th], gens)
  }

  predicate InRegion(pc: PC) {
    pc.RPage? || pc.RSlot? || pc.RWalk? || pc.RLeave?
  }

  function Counted(threads: map<Tid, PC>): set<Tid> {
    set th | th in threads && InRegion(threads[th])
  }

  ghost predicate CountOk(threads: map<Tid, PC>, readers: nat) {
    && |threads| < COUNTER_LIMIT
    && readers == |Counted(threads)|
  }

  predicate Holds(pc: PC) {
    !(pc.Idle? || InRegion(pc) || pc.ROwe? || pc.MWait? || pc.Done?)
  }

  ghost predicate LockOk(threads: map<Tid, PC>, lock: Option<Tid>) {
    && (forall th :: th in threads && Holds(threads[th]) ==> lock == Some(th))
    && (lock.Some? ==> lock.value in threads && Holds(threads[lock.value]))
  }

  predicate Pending(pc: PC) {
    pc.MWait? || pc.MPage? || pc.MPageStore? || pc.MLoad? || pc.MStore?
  }

  // A registration is in flight exactly while its add has neither published nor failed.
  ghost predicate FlightOk(threads: map<Tid, PC>, status: map<Reg, Status>) {
    && (forall r :: r in status && status[r].InFlight? ==>
          var th := status[r].caller;
          th in threads && Pending(threads[th]) && threads[th].op.Add? && threads[th].op.reg == r)
    && (forall th :: th in threads && Pending(threads[th]) && threads[th].op.Add? ==>
          threads[th].op.reg in status && status[threads[th].op.reg] == InFlight(th))
  }

  function Holder(threads: map<Tid, PC>, lock: Option<Tid>): PC {
    if lock.Some? && lock.value in threads then threads[lock.value] else Idle
  }

  ghost predicate Fits(e: Entry, gens: seq<Gen>, stage: Stage) {
    && e.tok < |gens|
    && var g := gens[e.tok];
       && g.stage == stage
       && e.head == PtrAt(g.addrs, g.freed)
       && e.finOne == g.fin.Some?
       && (g.fin.Some? ==> g.fin.value < |g.pairs| && e.finPid == g.pairs[g.fin.value].0)
  }

  ghost predicate Lists(es: seq<Entry>, t: Token) {
    exists k :: 0 <= k < |es| && es[k].tok == t
  }

  // `es` is a list, without repetition, of exactly the generations at this stage.
  ghost predicate ListOk(es: seq<Entry>, gens: seq<Gen>, stage: Stage) {
    && (forall k :: 0 <= k < |es| ==> Fits(es[k], gens, stage))
    && (forall j, k :: 0 <= j < k < |es| ==> es[j].tok != es[k].tok)
    && (forall t :: 0 <= t < |gens| && gens[t].stage == stage ==> Lists(es, t))
  }

  ghost predicate StageOk(h: PC, gens: seq<Gen>) {
    forall t :: 0 <= t < |gens| ==>
      && (gens[t].stage == Fresh ==> h.MStore? && h.newTok == t)
      && (gens[t].stage == Unlinked ==> (h.MRetire? || h.MPush?) && h.prevTok == Some(t))
  }

  ghost predicate HolderOk(home: Pid -> Slot, h: PC, pages: set<Page>, slots: map<Slot, Addr>, cur: map<Slot, Token>,
                           gens: seq<Gen>, retired: seq<Entry>)
  {
    && StageOk(h, gens)
    && ListOk(retired, gens, Retired)
    && ListOk(if h.Freeing? then h.work else [], gens, Doomed)
    && (h.MLoad? ==> home(h.op.pid).page in pages)
    && (h.MStore? ==> StoreReady(home, h, pages, slots, cur, gens))
    && (h.MRetire? || h.MPush? ==> RetireReady(h, gens))
  }

  ghost predicate StoreReady(home: Pid -> Slot, h: PC, pages: set<Page>, slots: map<Slot, Addr>,
                             cur: map<Slot, Token>, gens: seq<Gen>)
    requires h.MStore?
  {
    var k := home(h.op.pid);
    var pairs := CurPairs(cur, gens, k);
    && k.page in pages
    && h.prevTok == Get(cur, k)
    && h.prev == SlotPtr(slots, k)
    && h.newTok < |gens|
    && gens[h.newTok].stage == Fresh
    && gens[h.newTok].slot == k
    && gens[h.newTok].pairs == Rebuilt(h.op, pairs)
    && h.head == PtrAt(gens[h.newTok].addrs, 0)
    && h.fin == Find(pairs, h.op.pid).Some?
    && (h.op.Remove? ==> h.fin)
  }

  ghost predicate RetireReady(h: PC, gens: seq<Gen>)
    requires h.MRetire? || h.MPush?
  {
    && (h.prevTok.None? ==> h.prev == NULL)
    && (h.prevTok.Some? ==> Fits(Entry(h.prev, h.fin, h.op.pid, h.prevTok.value), gens, Unlinked))
    && (h.MPush? ==> h.prev != NULL)
  }

  // Someone will still look at a non-empty retired list.
  ghost predicate WatchedOk(retired: seq<Entry>, readers: nat, h: PC, threads: map<Tid, PC>) {
    retired != [] ==>
      || readers > 0
      || h.MRecheck?
      || exists th :: th in threads && (threads[th].ROwe? || threads[th].RFree?)
  }

  ghost predicate Inv(home: Pid -> Slot, s: State) {
    && GensOk(home, s.gens)
    && HeapOk(s.heap, s.gens)
    && SlotsOk(s.pages, s.slots, s.cur, s.gens)
    && TableOk(home, s.table, s.cur, s.gens)
    && StatusOk(s.table, s.gens, s.status, s.log)
    && ThreadsOk(s.threads, s.gens)
    && CountOk(s.threads, s.readers)
    && LockOk(s.threads, s.lock)
    && FlightOk(s.threads, s.status)
    && HolderOk(home, Holder(s.threads, s.lock), s.pages, s.slots, s.cur, s.gens, s.retired)
    && WatchedOk(s.retired, s.readers, Holder(s.threads, s.lock), s.threads)
  }

  // ---------- lists ----------

  lemma {:induction false} FindWithout(ps: Pairs, pid: Pid, q: Pid)
    ensures Find(Without(ps, pid), q) == if q == pid then None else Find(ps, q)
  {
    if ps != [] {
      FindWithout(ps[1..], pid, q);
      assert ps[0].0 != pid ==> Without(ps, pid)[1..] == Without(ps[1..], pid);
    }
  }

  // Dropping a proc_id keeps the other nodes, so uniqueness and placement survive.
  lemma {:induction false} WithoutSub(ps: Pairs, pid: Pid)
    requires forall i, j :: 0 <= i < j < |ps| ==> ps[i].0 != ps[j].0
    ensures forall i :: 0 <= i < |Without(ps, pid)| ==> Without(ps, pid)[i] in ps && Without(ps, pid)[i].0 != pid
    ensures forall i, j :: 0 <= i < j < |Without(ps, pid)| ==> Without(ps, pid)[i].0 != Without(ps, pid)[j].0
  {
    if ps != [] {
      WithoutSub(ps[1..], pid);
    }
  }

  // A proc_id is found at one position only.
  lemma {:induction false} FindAt(ps: Pairs, i: nat)
    requires i < |ps|
    requires forall i, j :: 0 <= i < j < |ps| ==> ps[i].0 != ps[j].0
    ensures Find(ps, ps[i].0) == Some(ps[i].1)
  {
    if i > 0 { FindAt(ps[1..], i - 1); }
  }

  lemma {:induction false} FoundAt(ps: Pairs, pid: Pid) returns (i: nat)
    requires Find(ps, pid).Some?
    ensures i < |ps| && ps[i] == (pid, Find(ps, pid).value)
  {
    if ps[0].0 == pid { i := 0; } else { i := FoundAt(ps[1..], pid); i := i + 1; }
  }

  // ---------- reader count ----------

  lemma CountStep(threads: map<Tid, PC>, th: Tid, pc: PC)
    requires th in threads
    ensures InRegion(threads[th]) == InRegion(pc) ==> Counted(threads[th := pc]) == Counted(threads)
    ensures !InRegion(threads[th]) && InRegion(pc) ==>
              |Counted(threads[th := pc])| == |Counted(threads)| + 1 <= |threads|
    ensures InRegion(threads[th]) && !InRegion(pc) ==> |Counted(threads[th := pc])| == |Counted(threads)| - 1
    ensures |threads[th := pc]| == |threads|
  {
    var after := Counted(threads[th := pc]);
    assert threads[th := pc].Keys == threads.Keys;
    if InRegion(threads[th]) == InRegion(pc) {
      assert after == Counted(threads);
    } else if InRegion(pc) {
      assert after == Counted(threads) + {th};
      SubsetSize(after, threads.Keys);
    } else {
      assert after == Counted(threads) - {th};
    }
  }

  lemma SubsetSize<T>(a: set<T>, b: set<T>)
    requires a <= b
    ensures |a| <= |b|
  {
    assert b == a + (b - a);
  }
}
