/** The route table of src/routes.c as a step machine.

    Any number of threads run lookups, adds and removes.  Every atomic access to
    shared memory (the reader count, a page pointer, a slot) is one step, every route
    node is walked and freed in a step of its own, and steps of different threads
    interleave freely (sequential consistency).  Accesses that are private to a thread,
    or made under `mutate_lock`, ride along with the atomic access before them.

    The last four fields of `State` are history variables: no step reads them to decide
    what it does to the others. */
module RouteTable {
  import opened Options

  type Addr = nat
  const NULL: Addr := 0
  const COUNTER_LIMIT: nat := 0x1_0000_0000

  datatype Pid = Pid(bits: bv64)
  type Reg = nat     // one registration: a handler with its user data and finalizer
  type Tid = nat
  type Token = nat   // one generation of one chain: an index into `gens`
  datatype Page = Page(bits: bv32)
  datatype Slot = Slot(page: Page, index: bv32)
  type Pairs = seq<(Pid, Reg)>

  // A route node; `tok` and `pos` are history: the generation and position it was built for.
  datatype Node = Node(pid: Pid, reg: Reg, next: Addr, tok: Token, pos: nat)

  datatype Stage = Fresh | Published | Unlinked | Retired | Doomed | Gone | Leaked

  // The first `freed` nodes of a generation have been freed; `fin` is the position whose
  // registration is finalized when the generation is.
  datatype Gen = Gen(addrs: seq<Addr>, pairs: Pairs, slot: Slot, stage: Stage, freed: nat, fin: Option<nat>)

  datatype Status = InFlight(caller: Tid) | Failed | Live(pid: Pid) | Dying(tok: Token) | Finalized | Lost

  // `wirecall_retired_route`: `finalize_all` is never set in it.
  datatype Entry = Entry(head: Addr, finOne: bool, finPid: Pid, tok: Token)

  datatype Op = Add(pid: Pid, reg: Reg) | Remove(pid: Pid)

  // `lin` is the value of the abstract map at the lookup's linearization point.
  datatype Outcome =
    | Looked(pid: Pid, res: Option<Reg>, lin: Option<Reg>)
    | Mutated(op: Op, rc: int, applied: bool)

  datatype PC =
    | Idle
    | RPage(pid: Pid)
    | RSlot(pid: Pid)
    | RWalk(pid: Pid, p: Addr, rtok: Token, i: nat, lin: Option<Reg>)
    | RLeave(out: Outcome)
    | ROwe(out: Outcome)
    | RFree(out: Outcome)
    | MWait(op: Op)
    | MPage(op: Op)
    | MPageStore(op: Op)
    | MLoad(op: Op)
    | MStore(op: Op, head: Addr, newTok: Token, prev: Addr, prevTok: Option<Token>, fin: bool)
    | MRetire(op: Op, prev: Addr, prevTok: Option<Token>, fin: bool)
    | MPush(op: Op, prev: Addr, prevTok: Option<Token>, fin: bool)
    | MRecheck(op: Op)
    | Freeing(work: seq<Entry>, out: Outcome)
    | Unlock(out: Outcome)
    | Done(out: Outcome)

  datatype State = State(
    heap: map<Addr, Node>,
    pages: set<Page>,
    slots: map<Slot, Addr>,
    readers: nat,
    lock: Option<Tid>,
    retired: seq<Entry>,
    threads: map<Tid, PC>,
    log: seq<Reg>,            // finalizer calls so far
    gens: seq<Gen>,
    cur: map<Slot, Token>,
    table: map<Pid, Reg>,
    status: map<Reg, Status>)

  // What the environment chooses at a step: the call an idle thread makes, whether an
  // allocation succeeds, and the addresses the allocator returns.  `seen` names the chain
  // a mutator reads from memory.
  datatype Act = Lookup(pid: Pid) | Mutate(op: Op) | Tau(ok: bool, blocks: seq<Addr>, seen: Pairs)

  // ---------- chains as lists of (proc_id, registration) ----------

  function Find(ps: Pairs, pid: Pid): Option<Reg> {
    if ps == [] then None
    else if ps[0].0 == pid then Some(ps[0].1)
    else Find(ps[1..], pid)
  }

  function Without(ps: Pairs, pid: Pid): Pairs {
    if ps == [] then []
    else if ps[0].0 == pid then Without(ps[1..], pid)
    else [ps[0]] + Without(ps[1..], pid)
  }

  // The chain a mutator builds from the old one.
  function Rebuilt(op: Op, ps: Pairs): Pairs {
    match op
    case Add(pid, reg) => [(pid, reg)] + Without(ps, pid)
    case Remove(pid) => Without(ps, pid)
  }

  function PtrAt(addrs: seq<Addr>, i: nat): Addr {
    if i < |addrs| then addrs[i] else NULL
  }

  // The map a mutation leaves behind.
  function Apply(op: Op, table: map<Pid, Reg>): map<Pid, Reg> {
    match op
    case Add(pid, reg) => table[pid := reg]
    case Remove(pid) => table - {pid}
  }

  // ---------- steps ----------

  // `heap1` is `heap` with a private chain for `pairs` at the given new addresses.
  ghost predicate Built(heap: map<Addr, Node>, heap1: map<Addr, Node>, addrs: seq<Addr>, pairs: Pairs, tok: Token) {
    && |addrs| == |pairs|
    && (forall i :: 0 <= i < |addrs| ==> addrs[i] != NULL && addrs[i] !in heap)
    && (forall i, j :: 0 <= i < j < |addrs| ==> addrs[i] != addrs[j])
    && (forall a :: a in heap1 <==> a in heap || a in addrs)
    && (forall a :: a in heap ==> heap1[a] == heap[a])
    && (forall i :: 0 <= i < |addrs| ==> BuiltAt(heap1, addrs, pairs, tok, i))
  }

  ghost predicate BuiltAt(heap: map<Addr, Node>, addrs: seq<Addr>, pairs: Pairs, tok: Token, i: nat)
    requires i < |addrs| == |pairs|
  {
    addrs[i] in heap && heap[addrs[i]] == Node(pairs[i].0, pairs[i].1, PtrAt(addrs, i + 1), tok, i)
  }

  function PrevTok(s: State, k: Slot): Option<Token> {
    Get(s.cur, k)
  }

  // Following `next` from `p` in memory reads exactly `pairs`.
  ghost predicate Reads(heap: map<Addr, Node>, p: Addr, pairs: Pairs)
    decreases |pairs|
  {
    if pairs == [] then p == NULL
    else && p in heap
         && (heap[p].pid, heap[p].reg) == pairs[0]
         && Reads(heap, heap[p].next, pairs[1..])
  }

  function SlotPtr(slots: map<Slot, Addr>, k: Slot): Addr {
    if k in slots then slots[k] else NULL
  }

  function SetStage(gens: seq<Gen>, t: Option<Token>, stage: Stage, freed: nat): seq<Gen> {
    if t.Some? && t.value < |gens| then gens[t.value := gens[t.value].(stage := stage, freed := freed)] else gens
  }

  function DoomRetired(gens: seq<Gen>): (r: seq<Gen>)
    ensures |r| == |gens|
    ensures forall t :: 0 <= t < |gens| ==>
              r[t] == if gens[t].stage == Retired then gens[t].(stage := Doomed) else gens[t]
  {
    seq(|gens|, t requires 0 <= t < |gens| =>
      if gens[t].stage == Retired then gens[t].(stage := Doomed) else gens[t])
  }

  function Reset(status: map<Reg, Status>, op: Op, st: Status): map<Reg, Status> {
    if op.Add? then status[op.reg := st] else status
  }

  // The registration a generation is to finalize.
  function FinReg(g: Gen): Option<Reg> {
    if g.fin.Some? && g.fin.value < |g.pairs| then Some(g.pairs[g.fin.value].1) else None
  }

  function Mark(status: map<Reg, Status>, r: Option<Reg>, st: Status): map<Reg, Status> {
    if r.Some? then status[r.value := st] else status
  }

  function IndexOf(ps: Pairs, pid: Pid): (r: Option<nat>)
    ensures r.Some? ==> r.value < |ps| && ps[r.value].0 == pid && Find(ps, pid) == Some(ps[r.value].1)
    ensures r.None? ==> Find(ps, pid).None? && forall i :: 0 <= i < |ps| ==> ps[i].0 != pid
  {
    if ps == [] then None
    else if ps[0].0 == pid then Some(0)
    else var r := IndexOf(ps[1..], pid); if r.Some? then Some(r.value + 1) else None
  }

  function Go(s: State, th: Tid, pc: PC): State {
    s.(threads := s.threads[th := pc])
  }

  // ---------- control ----------

  function TokOf(t: Option<Token>): Token {
    if t.Some? then t.value else 0
  }

  // A mutator gives up when memory runs out, and a remove also when there is nothing to remove.
  predicate GivesUp(op: Op, act: Act)
    requires act.Tau?
  {
    !act.ok || (op.Remove? && Find(act.seen, op.pid).None?)
  }

  // Where a thread goes next.
  function NextPC(home: Pid -> Slot, s: State, act: Act, pc: PC): PC {
    match pc
    case Idle => (match act case Lookup(pid) => RPage(pid) case Mutate(op) => MWait(op) case Tau(_, _, _) => Idle)
    case RPage(pid) =>
      if home(pid).page in s.pages then RSlot(pid) else RLeave(Looked(pid, None, Get(s.table, pid)))
    case RSlot(pid) =>
      var p := SlotPtr(s.slots, home(pid));
      if p == NULL then RLeave(Looked(pid, None, Get(s.table, pid)))
      else RWalk(pid, p, TokOf(PrevTok(s, home(pid))), 0, Get(s.table, pid))
    case RWalk(pid, p, t, i, lin) =>
      if p !in s.heap then pc
      else if s.heap[p].pid == pid then RLeave(Looked(pid, Some(s.heap[p].reg), lin))
      else if s.heap[p].next == NULL then RLeave(Looked(pid, None, lin))
      else RWalk(pid, s.heap[p].next, t, i + 1, lin)
    case RLeave(out) => if s.readers == 1 then ROwe(out) else Done(out)
    case ROwe(out) => RFree(out)
    case RFree(out) => if s.readers != 0 then Unlock(out) else Freeing(s.retired, out)
    case MWait(op) => MPage(op)
    case MPage(op) =>
      if home(op.pid).page in s.pages then MLoad(op)
      else if op.Add? && act.Tau? && act.ok then MPageStore(op)
      else Unlock(Mutated(op, -1, false))
    case MPageStore(op) => MLoad(op)
    case MLoad(op) =>
      if !act.Tau? || GivesUp(op, act) then Unlock(Mutated(op, -1, false))
      else var k := home(op.pid);
           MStore(op, PtrAt(act.blocks, 0), |s.gens|, SlotPtr(s.slots, k), PrevTok(s, k), Find(act.seen, op.pid).Some?)
    case MStore(op, _, _, prev, prevTok, fin) => MRetire(op, prev, prevTok, fin)
    case MRetire(op, prev, prevTok, fin) =>
      if prev == NULL then Unlock(Mutated(op, 0, true))
      else if s.readers == 0 then Freeing([Entry(prev, fin, op.pid, TokOf(prevTok))], Mutated(op, 0, true))
      else MPush(op, prev, prevTok, fin)
    case MPush(op, _, _, _) => if act.Tau? && act.ok then MRecheck(op) else Unlock(Mutated(op, -1, true))
    case MRecheck(op) =>
      if s.readers != 0 then Unlock(Mutated(op, 0, true)) else Freeing(s.retired, Mutated(op, 0, true))
    case Freeing(work, out) =>
      if work == [] then Unlock(out)
      else if work[0].head == NULL then Freeing(work[1..], out)
      else if work[0].head in s.heap then Freeing(work[0 := work[0].(head := s.heap[work[0].head].next)], out)
      else pc
    case Unlock(out) => Done(out)
    case Done(_) => Idle
  }

  // ---------- effects on shared memory ----------

  ghost predicate Same(s: State, s': State) {
    s' == s.(threads := s'.threads, table := s'.table)
  }

  ghost predicate BeginStep(s: State, th: Tid, act: Act, s': State) {
    match act
    case Lookup(pid) => s' == s.(threads := s'.threads, table := s'.table, readers := (s.readers + 1) % COUNTER_LIMIT)
    case Mutate(op) =>
      && (op.Add? ==> op.reg !in s.status)
      && s' == s.(threads := s'.threads, table := s'.table, status := Reset(s.status, op, InFlight(th)))
    case Tau(_, _, _) => false
  }

  // `free_retired`: load the reader count and, if it is zero, take the whole list.
  ghost predicate TakeStep(s: State, s': State) {
    s' == s.(threads := s'.threads, table := s'.table,
             retired := if s.readers != 0 then s.retired else [],
             gens := if s.readers != 0 then s.gens else DoomRetired(s.gens))
  }

  // The operation returns -1 without having published anything.
  ghost predicate GiveUpStep(s: State, op: Op, s': State) {
    s' == s.(threads := s'.threads, table := s'.table, status := Reset(s.status, op, Failed))
  }

  // The slot load, the scan of the old chain and the private copy.
  ghost predicate CopyStep(home: Pid -> Slot, s: State, op: Op, act: Act, s': State) {
    var k := home(op.pid);
    && act.Tau?
    && Reads(s.heap, SlotPtr(s.slots, k), act.seen)
    && if GivesUp(op, act) then GiveUpStep(s, op, s')
       else
         && Built(s.heap, s'.heap, act.blocks, Rebuilt(op, act.seen), |s.gens|)
         && s' == s.(threads := s'.threads, table := s'.table,
                     heap := s'.heap,
                     gens := s.gens + [Gen(act.blocks, Rebuilt(op, act.seen), k, Fresh, 0, None)])
  }

  ghost predicate PageStep(home: Pid -> Slot, s: State, op: Op, act: Act, s': State) {
    && act.Tau?
    && if home(op.pid).page in s.pages || (op.Add? && act.ok) then Same(s, s') else GiveUpStep(s, op, s')
  }

  // Generations after the slot store: the new one is published, the old one unlinked.
  function Swapped(gens: seq<Gen>, pc: PC): seq<Gen>
    requires pc.MStore?
  {
    var g1 := SetStage(gens, Some(pc.newTok), Published, 0);
    if pc.prevTok.Some? && pc.prevTok.value < |g1| then
      var o := g1[pc.prevTok.value];
      g1[pc.prevTok.value := o.(stage := Unlinked, fin := IndexOf(o.pairs, pc.op.pid))]
    else g1
  }

  function SwappedStatus(s: State, pc: PC): map<Reg, Status>
    requires pc.MStore?
  {
    var st1 := if pc.op.pid in s.table && pc.prevTok.Some? then s.status[s.table[pc.op.pid] := Dying(pc.prevTok.value)]
               else s.status;
    Reset(st1, pc.op, Live(pc.op.pid))
  }

  ghost predicate StoreStep(home: Pid -> Slot, s: State, pc: PC, s': State)
    requires pc.MStore?
  {
    var k := home(pc.op.pid);
    s' == s.(threads := s'.threads, table := s'.table,
             slots := s.slots[k := pc.head],
             cur := s.cur[k := pc.newTok],
             gens := Swapped(s.gens, pc),
             status := SwappedStatus(s, pc))
  }

  // `retire_route` up to its first load of the reader count.
  ghost predicate RetireStep(s: State, pc: PC, s': State)
    requires pc.MRetire?
  {
    s' == s.(threads := s'.threads, table := s'.table,
             gens := if pc.prev == NULL then SetStage(s.gens, pc.prevTok, Gone, 0)
                     else if s.readers == 0 then SetStage(s.gens, pc.prevTok, Doomed, 0)
                     else s.gens)
  }

  // Allocate a retired node and link it in; without memory the chain is leaked.
  ghost predicate PushStep(s: State, pc: PC, act: Act, s': State)
    requires pc.MPush?
  {
    && act.Tau?
    && if act.ok then
         s' == s.(threads := s'.threads, table := s'.table,
                  retired := [Entry(pc.prev, pc.fin, pc.op.pid, TokOf(pc.prevTok))] + s.retired,
                  gens := SetStage(s.gens, pc.prevTok, Retired, 0))
       else
         s' == s.(threads := s'.threads, table := s'.table,
                  gens := SetStage(s.gens, pc.prevTok, Leaked, 0),
                  status := if pc.prevTok.Some? && pc.prevTok.value < |s.gens|
                            then Mark(s.status, FinReg(s.gens[pc.prevTok.value]), Lost) else s.status)
  }

  // One iteration of `route_chain_free` (or one move to the next retired entry).
  ghost predicate FreeStep(s: State, pc: PC, s': State)
    requires pc.Freeing?
  {
    if pc.work == [] then Same(s, s')
    else
      var e := pc.work[0];
      && e.tok < |s.gens|
      && if e.head == NULL then
           s' == s.(threads := s'.threads, table := s'.table,
                    gens := SetStage(s.gens, Some(e.tok), Gone, s.gens[e.tok].freed))
         else
           && e.head in s.heap
           && var n := s.heap[e.head];
              var last := e.finOne && n.pid == e.finPid;
              s' == s.(threads := s'.threads, table := s'.table,
                       heap := s.heap - {e.head},
                       log := if last then s.log + [n.reg] else s.log,
                       gens := SetStage(s.gens, Some(e.tok), Doomed, s.gens[e.tok].freed + 1),
                       status := if last then s.status[n.reg := Finalized] else s.status)
  }

  // What one step of thread `th` at `pc` does to everything but the control points and the map.
  ghost predicate Effect(home: Pid -> Slot, s: State, th: Tid, act: Act, pc: PC, s': State) {
    match pc
    case Idle => BeginStep(s, th, act, s')
    case RWalk(_, p, _, _, _) => p in s.heap && Same(s, s')
    case RLeave(_) => s' == s.(threads := s'.threads, table := s'.table,
                               readers := (s.readers + COUNTER_LIMIT - 1) % COUNTER_LIMIT)
    case ROwe(_) => s.lock.None? && s' == s.(threads := s'.threads, table := s'.table, lock := Some(th))
    case RFree(_) => TakeStep(s, s')
    case MWait(_) => s.lock.None? && s' == s.(threads := s'.threads, table := s'.table, lock := Some(th))
    case MPage(op) => PageStep(home, s, op, act, s')
    case MPageStore(op) => s' == s.(threads := s'.threads, table := s'.table, pages := s.pages + {home(op.pid).page})
    case MLoad(op) => CopyStep(home, s, op, act, s')
    case MStore(_, _, _, _, _, _) => StoreStep(home, s, pc, s')
    case MRetire(_, _, _, _) => RetireStep(s, pc, s')
    case MPush(_, _, _, _) => PushStep(s, pc, act, s')
    case MRecheck(_) => TakeStep(s, s')
    case Freeing(_, _) => FreeStep(s, pc, s')
    case Unlock(_) => s' == s.(threads := s'.threads, table := s'.table, lock := None)
    case _ => Same(s, s')
  }

  // Thread `th` takes a step: no other thread moves, and the map changes at a slot store only.
  ghost predicate Next(home: Pid -> Slot, s: State, th: Tid, act: Act, s': State) {
    && th in s.threads
    && s'.threads == s.threads[th := NextPC(home, s, act, s.threads[th])]
    && s'.table == (if s.threads[th].MStore? then Apply(s.threads[th].op, s.table) else s.table)
    && Effect(home, s, th, act, s.threads[th], s')
  }

  ghost predicate Init(s: State) {
    && s.heap == map[] && s.pages == {} && s.slots == map[] && s.readers == 0 && s.lock.None?
    && s.retired == [] && s.log == [] && s.gens == [] && s.cur == map[] && s.table == map[] && s.status == map[]
    && |s.threads| < COUNTER_LIMIT
    && forall th :: th in s.threads ==> s.threads[th].Idle?
  }

  // A run, with the thread and choice of each step.
  ghost predicate Run(home: Pid -> Slot, states: seq<State>, acts: seq<(Tid, Act)>) {
    && |states| == |acts| + 1
    && Init(states[0])
    && forall i :: 0 <= i < |acts| ==> Next(home, states[i], acts[i].0, acts[i].1, states[i + 1])
  }
}
