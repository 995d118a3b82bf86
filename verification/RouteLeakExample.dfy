/** A run in which an add takes effect, returns -1, and loses the registration it replaced. */
module RouteLeakExample {
  import opened Options
  import opened RouteTable

  // The run ends in `s`.
  ghost predicate RunsTo(home: Pid -> Slot, states: seq<State>, acts: seq<(Tid, Act)>, s: State) {
    Run(home, states, acts) && states[|acts|] == s
  }

  lemma Extend(home: Pid -> Slot, states: seq<State>, acts: seq<(Tid, Act)>, s: State, th: Tid, act: Act, s': State)
    requires RunsTo(home, states, acts, s) && Next(home, s, th, act, s')
    ensures RunsTo(home, states + [s'], acts + [(th, act)], s')
  {
    hide Next, Init;
    var more, moreActs := states + [s'], acts + [(th, act)];
    forall i | 0 <= i < |moreActs| ensures Next(home, more[i], moreActs[i].0, moreActs[i].1, more[i + 1]) {
      if i < |acts| { assert Next(home, states[i], acts[i].0, acts[i].1, states[i + 1]); }
    }
  }

  const WRITER: Tid := 0
  const READER: Tid := 1
  const OLD: Addr := 10
  const NEW: Addr := 20

  function Tick(): Act { Tau(true, [], []) }

  function Blank(): State {
    State(map[], {}, map[], 0, None, [], map[WRITER := Idle, READER := Idle], [], [], map[], map[], map[])
  }

  // The first registration is 1, the second 2.
  function First(pid: Pid): Op { Add(pid, 1) }
  function Second(pid: Pid): Op { Add(pid, 2) }

  function OldGen(k: Slot, pid: Pid, stage: Stage, fin: Option<nat>): Gen { Gen([OLD], [(pid, 1)], k, stage, 0, fin) }
  function NewGen(k: Slot, pid: Pid, stage: Stage): Gen { Gen([NEW], [(pid, 2)], k, stage, 0, None) }

  // Registration 1 is published and nothing is going on.
  function Added(home: Pid -> Slot, pid: Pid): State {
    var k := home(pid);
    State(map[OLD := Node(pid, 1, NULL, 0, 0)], {k.page}, map[k := OLD], 0, None, [],
          map[WRITER := Idle, READER := Idle], [], [OldGen(k, pid, Published, None)], map[k := 0], map[pid := 1],
          map[1 := Live(pid)])
  }

  // The writer of `op` is about to load the slot.
  function Loading(s: State, page: Page, op: Op): State
    requires op.Add?
  {
    s.(threads := s.threads[WRITER := MLoad(op)], pages := s.pages + {page}, lock := Some(WRITER),
       status := s.status[op.reg := InFlight(WRITER)])
  }

  // An add, from its call to the load of the slot.
  lemma Begin(home: Pid -> Slot, states: seq<State>, acts: seq<(Tid, Act)>, s: State, op: Op)
    returns (states': seq<State>, acts': seq<(Tid, Act)>)
    requires RunsTo(home, states, acts, s) && op.Add? && op.reg !in s.status && s.lock.None?
    requires WRITER in s.threads && s.threads[WRITER].Idle?
    ensures RunsTo(home, states', acts', Loading(s, home(op.pid).page, op))
  {
    hide RunsTo;
    var page := home(op.pid).page;
    var s1 := s.(threads := s.threads[WRITER := MWait(op)], status := s.status[op.reg := InFlight(WRITER)]);
    assert Next(home, s, WRITER, Mutate(op), s1);
    Extend(home, states, acts, s, WRITER, Mutate(op), s1);
    var s2 := s1.(threads := s1.threads[WRITER := MPage(op)], lock := Some(WRITER));
    assert Next(home, s1, WRITER, Tick(), s2);
    states', acts' := states + [s1], acts + [(WRITER, Mutate(op))];
    Extend(home, states', acts', s1, WRITER, Tick(), s2);
    states', acts' := states' + [s2], acts' + [(WRITER, Tick())];
    var s4 := Loading(s, page, op);
    if page in s.pages {
      assert s4.pages == s2.pages;
      assert Next(home, s2, WRITER, Tick(), s4);
      Extend(home, states', acts', s2, WRITER, Tick(), s4);
      states', acts' := states' + [s4], acts' + [(WRITER, Tick())];
    } else {
      var s3 := s2.(threads := s2.threads[WRITER := MPageStore(op)]);
      assert Next(home, s2, WRITER, Tick(), s3);
      Extend(home, states', acts', s2, WRITER, Tick(), s3);
      states', acts' := states' + [s3], acts' + [(WRITER, Tick())];
      assert Next(home, s3, WRITER, Tick(), s4);
      Extend(home, states', acts', s3, WRITER, Tick(), s4);
      states', acts' := states' + [s4], acts' + [(WRITER, Tick())];
    }
  }

  // ---------- steps of the writer ----------

  function Goes(s: State, pc: PC): State { s.(threads := s.threads[WRITER := pc]) }

  // The copy of the chain `seen` at the slot, in one new node.
  function Copying(home: Pid -> Slot, s: State, op: Op, a: Addr, seen: Pairs): State
    requires op.Add?
  {
    var k := home(op.pid);
    Goes(s, MStore(op, a, |s.gens|, SlotPtr(s.slots, k), Get(s.cur, k), Find(seen, op.pid).Some?)).(
      heap := s.heap[a := Node(op.pid, op.reg, NULL, |s.gens|, 0)],
      gens := s.gens + [Gen([a], [(op.pid, op.reg)], k, Fresh, 0, None)])
  }

  lemma Copies(home: Pid -> Slot, s: State, op: Op, a: Addr, seen: Pairs)
    requires WRITER in s.threads && s.threads[WRITER] == MLoad(op) && op.Add? && a != NULL && a !in s.heap
    requires Reads(s.heap, SlotPtr(s.slots, home(op.pid)), seen) && Without(seen, op.pid) == []
    ensures Next(home, s, WRITER, Tau(true, [a], seen), Copying(home, s, op, a, seen))
  {
    hide Reads, Find, Without;
    var s1 := Copying(home, s, op, a, seen);
    assert Rebuilt(op, seen) == [(op.pid, op.reg)];
    assert BuiltAt(s1.heap, [a], [(op.pid, op.reg)], |s.gens|, 0);
    assert Built(s.heap, s1.heap, [a], [(op.pid, op.reg)], |s.gens|);
    hide Built;
    assert CopyStep(home, s, op, Tau(true, [a], seen), s1);
  }

  function Storing(home: Pid -> Slot, s: State, pc: PC): State
    requires pc.MStore?
  {
    var k := home(pc.op.pid);
    Goes(s, MRetire(pc.op, pc.prev, pc.prevTok, pc.fin)).(
      slots := s.slots[k := pc.head], cur := s.cur[k := pc.newTok], gens := Swapped(s.gens, pc),
      status := SwappedStatus(s, pc), table := Apply(pc.op, s.table))
  }

  lemma Stores(home: Pid -> Slot, s: State, pc: PC)
    requires WRITER in s.threads && s.threads[WRITER] == pc && pc.MStore?
    ensures Next(home, s, WRITER, Tick(), Storing(home, s, pc))
  {
    hide Swapped, SwappedStatus, Apply;
  }

  // The last two steps of a call.
  lemma Leave(home: Pid -> Slot, states: seq<State>, acts: seq<(Tid, Act)>, s: State, out: Outcome)
    returns (states': seq<State>, acts': seq<(Tid, Act)>)
    requires RunsTo(home, states, acts, s) && WRITER in s.threads && s.threads[WRITER] == Unlock(out)
    ensures RunsTo(home, states', acts', Goes(s, Done(out)).(lock := None))
  {
    hide RunsTo;
    var s1 := Goes(s, Done(out)).(lock := None);
    assert Next(home, s, WRITER, Tick(), s1);
    Extend(home, states, acts, s, WRITER, Tick(), s1);
    states', acts' := states + [s1], acts + [(WRITER, Tick())];
  }

  // ---------- the first add ----------

  // Registration 1 is published, nothing had to be retired, and the writer is about to unlock.
  function Published1(home: Pid -> Slot, pid: Pid): State {
    Goes(Added(home, pid), MRetire(First(pid), NULL, None, false)).(lock := Some(WRITER))
  }

  lemma FirstStore(home: Pid -> Slot, pid: Pid)
    ensures var s := Copying(home, Loading(Blank(), home(pid).page, First(pid)), First(pid), OLD, []);
            Storing(home, s, s.threads[WRITER]) == Published1(home, pid)
  {
    var s := Copying(home, Loading(Blank(), home(pid).page, First(pid)), First(pid), OLD, []);
    var r, want := Storing(home, s, s.threads[WRITER]), Published1(home, pid);
    assert r.gens == want.gens;
    assert r.status == want.status;
    assert r.threads == want.threads;
    assert r.heap == want.heap && r.pages == want.pages && r.slots == want.slots && r.cur == want.cur
           && r.table == want.table;
  }

  lemma FinishFirst(home: Pid -> Slot, pid: Pid, states: seq<State>, acts: seq<(Tid, Act)>)
    returns (states': seq<State>, acts': seq<(Tid, Act)>)
    requires RunsTo(home, states, acts, Loading(Blank(), home(pid).page, First(pid)))
    ensures RunsTo(home, states', acts', Added(home, pid))
  {
    hide RunsTo;
    var s, copy := Loading(Blank(), home(pid).page, First(pid)), Tau(true, [OLD], []);
    var s1 := Copying(home, s, First(pid), OLD, []);
    Copies(home, s, First(pid), OLD, []);
    Extend(home, states, acts, s, WRITER, copy, s1);
    states', acts' := states + [s1], acts + [(WRITER, copy)];
    var s2 := Published1(home, pid);
    FirstStore(home, pid);
    Stores(home, s1, s1.threads[WRITER]);
    Extend(home, states', acts', s1, WRITER, Tick(), s2);
    states', acts' := states' + [s2], acts' + [(WRITER, Tick())];
    hide Copying, Storing;
    states', acts' := FirstReturns(home, pid, states', acts');
  }

  lemma FirstReturns(home: Pid -> Slot, pid: Pid, states: seq<State>, acts: seq<(Tid, Act)>)
    returns (states': seq<State>, acts': seq<(Tid, Act)>)
    requires RunsTo(home, states, acts, Published1(home, pid))
    ensures RunsTo(home, states', acts', Added(home, pid))
  {
    var s, out := Published1(home, pid), Mutated(First(pid), 0, true);
    var s1 := Goes(s, Unlock(out));
    var s2, s3 := Goes(s1, Done(out)).(lock := None), Added(home, pid);
    assert s2.threads[WRITER := Idle] == s3.threads;
    NothingToRetire(home, s, First(pid));
    Rests(home, s2, out);
    hide RunsTo, Next;
    Extend(home, states, acts, s, WRITER, Tick(), s1);
    states', acts' := Leave(home, states + [s1], acts + [(WRITER, Tick())], s1, out);
    Extend(home, states', acts', s2, WRITER, Tick(), s3);
    states', acts' := states' + [s3], acts' + [(WRITER, Tick())];
  }

  lemma NothingToRetire(home: Pid -> Slot, s: State, op: Op)
    requires WRITER in s.threads && s.threads[WRITER] == MRetire(op, NULL, None, false)
    ensures Next(home, s, WRITER, Tick(), Goes(s, Unlock(Mutated(op, 0, true))))
  {
  }

  lemma Rests(home: Pid -> Slot, s: State, out: Outcome)
    requires WRITER in s.threads && s.threads[WRITER] == Done(out)
    ensures Next(home, s, WRITER, Tick(), Goes(s, Idle))
  {
  }

  // ---------- the second add ----------

  // A lookup has entered the counted region.
  function Watched(home: Pid -> Slot, pid: Pid): State {
    var s := Added(home, pid);
    s.(threads := s.threads[READER := RPage(pid)], readers := 1)
  }

  // The second add has published its chain and must retire the first.
  function Replaced(home: Pid -> Slot, pid: Pid): State {
    var k := home(pid);
    State(map[OLD := Node(pid, 1, NULL, 0, 0), NEW := Node(pid, 2, NULL, 1, 0)], {k.page}, map[k := NEW], 1,
          Some(WRITER), [], map[WRITER := MRetire(Second(pid), OLD, Some(0), true), READER := RPage(pid)], [],
          [OldGen(k, pid, Unlinked, Some(0)), NewGen(k, pid, Published)], map[k := 1], map[pid := 2],
          map[1 := Dying(0), 2 := Live(pid)])
  }

  // What is left when the retired node cannot be allocated: the add has taken effect and returns -1, the chain it
  // replaced is leaked, and registration 1 is neither in the table nor ever to be finalized.
  function Leaky(home: Pid -> Slot, pid: Pid): State {
    var k := home(pid);
    State(map[OLD := Node(pid, 1, NULL, 0, 0), NEW := Node(pid, 2, NULL, 1, 0)], {k.page}, map[k := NEW], 1,
          None, [], map[WRITER := Done(Mutated(Second(pid), -1, true)), READER := RPage(pid)], [],
          [OldGen(k, pid, Leaked, Some(0)), NewGen(k, pid, Published)], map[k := 1], map[pid := 2],
          map[1 := Lost, 2 := Live(pid)])
  }

  function Loading2(home: Pid -> Slot, pid: Pid): State { Loading(Watched(home, pid), home(pid).page, Second(pid)) }

  function Copying2(home: Pid -> Slot, pid: Pid): State {
    Copying(home, Loading2(home, pid), Second(pid), NEW, [(pid, 1)])
  }

  lemma OneNode(pid: Pid)
    ensures Without([(pid, 1)], pid) == [] && Find([(pid, 1)], pid) == Some(1) && IndexOf([(pid, 1)], pid) == Some(0)
  {
    assert [(pid, 1)][1..] == [];
  }

  lemma SecondCopy(home: Pid -> Slot, pid: Pid)
    ensures Next(home, Loading2(home, pid), WRITER, Tau(true, [NEW], [(pid, 1)]), Copying2(home, pid))
  {
    var s := Loading2(home, pid);
    OneNode(pid);
    assert [(pid, 1)][1..] == [];
    assert Reads(s.heap, NULL, []);
    assert Reads(s.heap, OLD, [(pid, 1)]);
    hide Reads, Without, Find, Next, Copying;
    Copies(home, s, Second(pid), NEW, [(pid, 1)]);
  }

  lemma SecondGens(home: Pid -> Slot, pid: Pid)
    ensures var k := home(pid);
            Swapped([OldGen(k, pid, Published, None), NewGen(k, pid, Fresh)],
                    MStore(Second(pid), NEW, 1, OLD, Some(0), true))
            == [OldGen(k, pid, Unlinked, Some(0)), NewGen(k, pid, Published)]
  {
    OneNode(pid);
    hide IndexOf;
  }

  lemma SecondStatus(home: Pid -> Slot, pid: Pid, s: State)
    requires s.table == map[pid := 1] && s.status == map[1 := Live(pid), 2 := InFlight(WRITER)]
    ensures SwappedStatus(s, MStore(Second(pid), NEW, 1, OLD, Some(0), true)) == map[1 := Dying(0), 2 := Live(pid)]
  {
  }

  lemma SecondStore(home: Pid -> Slot, pid: Pid)
    ensures var s := Copying2(home, pid);
            && WRITER in s.threads && s.threads[WRITER].MStore?
            && Storing(home, s, s.threads[WRITER]) == Replaced(home, pid)
  {
    var s, k := Copying2(home, pid), home(pid);
    OneNode(pid);
    hide Find, Without, IndexOf;
    assert s.threads[WRITER] == MStore(Second(pid), NEW, 1, OLD, Some(0), true);
    assert s.gens == [OldGen(k, pid, Published, None), NewGen(k, pid, Fresh)];
    assert s.status == map[1 := Live(pid), 2 := InFlight(WRITER)];
    SecondGens(home, pid);
    SecondStatus(home, pid, s);
    hide Swapped, SwappedStatus;
    Overwrite(k, OLD, NEW);
    Overwrite(k, 0, 1);
    Overwrite(pid, 1, 2);
    assert s.pages == {k.page} && s.slots == map[k := OLD] && s.cur == map[k := 0] && s.table == map[pid := 1];
    SetWriter(s.threads, RPage(pid), MRetire(Second(pid), OLD, Some(0), true));
  }

  lemma Overwrite<K, V>(k: K, a: V, b: V)
    ensures map[k := a][k := b] == map[k := b]
  {
  }

  lemma SetWriter(threads: map<Tid, PC>, reader: PC, pc: PC)
    requires threads.Keys == {WRITER, READER} && threads[READER] == reader
    ensures threads[WRITER := pc] == map[WRITER := pc, READER := reader]
  {
  }

  lemma FinishSecond(home: Pid -> Slot, pid: Pid, states: seq<State>, acts: seq<(Tid, Act)>)
    returns (states': seq<State>, acts': seq<(Tid, Act)>)
    requires RunsTo(home, states, acts, Loading2(home, pid))
    ensures RunsTo(home, states', acts', Leaky(home, pid))
  {
    SecondStore(home, pid);
    hide RunsTo, Copying2, Storing, Replaced, Loading2, Next;
    var s, copy := Copying2(home, pid), Tau(true, [NEW], [(pid, 1)]);
    SecondCopy(home, pid);
    Extend(home, states, acts, Loading2(home, pid), WRITER, copy, s);
    states', acts' := states + [s], acts + [(WRITER, copy)];
    Stores(home, s, s.threads[WRITER]);
    Extend(home, states', acts', s, WRITER, Tick(), Replaced(home, pid));
    states', acts' := Starve(home, pid, states' + [Replaced(home, pid)], acts' + [(WRITER, Tick())]);
  }

  function Pushing(home: Pid -> Slot, pid: Pid): State {
    Goes(Replaced(home, pid), MPush(Second(pid), OLD, Some(0), true))
  }

  lemma MustPush(home: Pid -> Slot, pid: Pid)
    ensures Next(home, Replaced(home, pid), WRITER, Tick(), Pushing(home, pid))
  {
  }

  function Failed2(home: Pid -> Slot, pid: Pid): State {
    Goes(Leaky(home, pid), Unlock(Mutated(Second(pid), -1, true))).(lock := Some(WRITER))
  }

  // The step of a push without memory.
  lemma Starves(home: Pid -> Slot, s: State, pc: PC)
    requires WRITER in s.threads && s.threads[WRITER] == pc && pc.MPush? && pc.prevTok.Some?
    requires pc.prevTok.value < |s.gens|
    ensures Next(home, s, WRITER, Tau(false, [], []),
                 Goes(s, Unlock(Mutated(pc.op, -1, true))).(
                   gens := SetStage(s.gens, pc.prevTok, Leaked, 0),
                   status := Mark(s.status, FinReg(s.gens[pc.prevTok.value]), Lost)))
  {
    hide SetStage, Mark, FinReg;
  }

  lemma CannotPush(home: Pid -> Slot, pid: Pid)
    ensures Next(home, Pushing(home, pid), WRITER, Tau(false, [], []), Failed2(home, pid))
  {
    hide Next;
    var s, s1, k := Pushing(home, pid), Failed2(home, pid), home(pid);
    var pc, out := MPush(Second(pid), OLD, Some(0), true), Unlock(Mutated(Second(pid), -1, true));
    assert s.threads[WRITER] == pc;
    Starves(home, s, pc);
    LeakGens(k, pid);
    LoseStatus(pid);
    hide SetStage, Mark, FinReg;
    SetWriter(s.threads, RPage(pid), out);
    SetWriter(Leaky(home, pid).threads, RPage(pid), out);
  }

  lemma LeakGens(k: Slot, pid: Pid)
    ensures var gens := [OldGen(k, pid, Unlinked, Some(0)), NewGen(k, pid, Published)];
            && SetStage(gens, Some(0), Leaked, 0) == [OldGen(k, pid, Leaked, Some(0)), NewGen(k, pid, Published)]
            && FinReg(gens[0]) == Some(1)
  {
  }

  lemma LoseStatus(pid: Pid)
    ensures Mark(map[1 := Dying(0), 2 := Live(pid)], Some(1), Lost) == map[1 := Lost, 2 := Live(pid)]
  {
  }

  // A reader is in sight, so the old chain must be put on the retired list, and there is no memory for that.
  lemma Starve(home: Pid -> Slot, pid: Pid, states: seq<State>, acts: seq<(Tid, Act)>)
    returns (states': seq<State>, acts': seq<(Tid, Act)>)
    requires RunsTo(home, states, acts, Replaced(home, pid))
    ensures RunsTo(home, states', acts', Leaky(home, pid))
  {
    var s1, s2, end := Pushing(home, pid), Failed2(home, pid), Leaky(home, pid);
    var out, starve := Mutated(Second(pid), -1, true), Tau(false, [], []);
    assert s2.threads[WRITER] == Unlock(out) && Goes(s2, Done(out)).threads == end.threads;
    hide RunsTo, Next, Replaced, Pushing;
    MustPush(home, pid);
    Extend(home, states, acts, Replaced(home, pid), WRITER, Tick(), s1);
    states', acts' := states + [s1], acts + [(WRITER, Tick())];
    CannotPush(home, pid);
    Extend(home, states', acts', s1, WRITER, starve, s2);
    states', acts' := Leave(home, states' + [s2], acts' + [(WRITER, starve)], s2, out);
  }

  lemma Enters(home: Pid -> Slot, pid: Pid)
    ensures Next(home, Added(home, pid), READER, Lookup(pid), Watched(home, pid))
  {
  }

  // For any placement of ids in slots and any id there is a run to that state.
  lemma LeakyRun(home: Pid -> Slot, pid: Pid) returns (states: seq<State>, acts: seq<(Tid, Act)>)
    ensures Run(home, states, acts) && states[|acts|] == Leaky(home, pid)
  {
    states, acts := [Blank()], [];
    assert RunsTo(home, states, acts, Blank());
    hide RunsTo, Next;
    states, acts := Begin(home, states, acts, Blank(), First(pid));
    states, acts := FinishFirst(home, pid, states, acts);
    Enters(home, pid);
    Extend(home, states, acts, Added(home, pid), READER, Lookup(pid), Watched(home, pid));
    states, acts := states + [Watched(home, pid)], acts + [(READER, Lookup(pid))];
    states, acts := Begin(home, states, acts, Watched(home, pid), Second(pid));
    states, acts := FinishSecond(home, pid, states, acts);
    Ends(home, states, acts, Leaky(home, pid));
  }

  lemma Ends(home: Pid -> Slot, states: seq<State>, acts: seq<(Tid, Act)>, s: State)
    requires RunsTo(home, states, acts, s)
    ensures Run(home, states, acts) && states[|acts|] == s
  {
  }
}
