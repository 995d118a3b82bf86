/** When an add or remove returns 0 and when -1, in every run, told from the memory it found and from the map. */
module RouteOutcomes {
  import opened Options
  import opened RouteTable
  import opened RouteInvariant
  import opened RouteMutation
  import opened RouteTheorems
  import opened RouteCalls

  // A step at which a mutation has to fail: no memory for a page, for the copy of the chain or for the retired node;
  // or nothing to remove.
  predicate Thwarts(home: Pid -> Slot, s: State, pc: PC, act: Act) {
    act.Tau? &&
    match pc
    case MPage(op) => home(op.pid).page !in s.pages && (op.Remove? || !act.ok)
    case MLoad(op) => !act.ok || (op.Remove? && op.pid !in s.table)
    case MPush(_, _, _, _) => !act.ok
    case _ => false
  }

  ghost predicate ThwartedAt(home: Pid -> Slot, states: seq<State>, acts: seq<(Tid, Act)>, th: Tid, i: nat)
    requires i < |acts| < |states|
  {
    acts[i].0 == th && th in states[i].threads && Thwarts(home, states[i], states[i].threads[th], acts[i].1)
  }

  ghost predicate Thwarted(home: Pid -> Slot, states: seq<State>, acts: seq<(Tid, Act)>, th: Tid, c: nat, n: nat)
    requires n <= |acts| < |states|
  {
    exists i :: c <= i < n && ThwartedAt(home, states, acts, th, i)
  }

  // Under way, and the return value once that is settled.
  predicate Working(pc: PC) { Pending(pc) || Retiring(pc) }

  function Returns(pc: PC): Option<int> {
    if Reports(pc).Some? && Reports(pc).value.Mutated? then Some(Reports(pc).value.rc) else None
  }

  // ---------- single steps ----------

  // What the copying step sees in the chain is what the map has.
  lemma SeenIsMap(home: Pid -> Slot, s: State, pid: Pid, seen: Pairs)
    requires Inv(home, s) && Reads(s.heap, SlotPtr(s.slots, home(pid)), seen)
    ensures Find(seen, pid).None? <==> pid !in s.table
  {
    hide Find, CurPairs, GensOk, HeapOk, SlotsOk, StatusOk, ThreadsOk, CountOk, LockOk, FlightOk, HolderOk, WatchedOk;
    SeenIsCurrent(home, s, home(pid), seen);
    assert Get(s.table, pid) == Find(CurPairs(s.cur, s.gens, home(pid)), pid);
  }

  // The choice a mutator is given at a step that may need memory.
  lemma Chooses(home: Pid -> Slot, s: State, th: Tid, act: Act, s': State)
    requires Next(home, s, th, act, s')
    ensures s.threads[th].MPage? || s.threads[th].MLoad? || s.threads[th].MPush? ==> act.Tau?
    ensures s'.threads[th] == NextPC(home, s, act, s.threads[th])
  {
    hide NextPC, Reads, Built, Rebuilt, Find, Reset, SetStage;
  }

  lemma GoesOn(home: Pid -> Slot, s: State, act: Act, pc: PC)
    requires pc.MPage? || pc.MLoad? || pc.MPush? ==> act.Tau?
    requires pc.MLoad? && pc.op.Remove? ==> (Find(act.seen, pc.op.pid).None? <==> pc.op.pid !in s.table)
    ensures var pc' := NextPC(home, s, act, pc);
            && (Working(pc') ==> pc.Idle? || (Working(pc) && !Thwarts(home, s, pc, act)))
            && (Returns(pc').Some? ==>
                  || (Returns(pc) == Returns(pc') && !Thwarts(home, s, pc, act))
                  || (Working(pc) && Returns(pc').value == if Thwarts(home, s, pc, act) then -1 else 0))
  {
    hide Find;
  }

  // A step of a mutator that is thwarted settles -1, and one that is not settles nothing but 0.
  lemma StepReturns(home: Pid -> Slot, s: State, th: Tid, act: Act, s': State)
    requires Inv(home, s) && Next(home, s, th, act, s')
    ensures var pc, pc' := s.threads[th], s'.threads[th];
            && (Working(pc') ==> pc.Idle? || (Working(pc) && !Thwarts(home, s, pc, act)))
            && (Returns(pc').Some? ==>
                  || (Returns(pc) == Returns(pc') && !Thwarts(home, s, pc, act))
                  || (Working(pc) && Returns(pc').value == if Thwarts(home, s, pc, act) then -1 else 0))
  {
    Chooses(home, s, th, act, s');
    var pc := s.threads[th];
    if pc.MLoad? { LoadReads(home, s, th, act, s'); }
    hide Next, Inv, Reads, NextPC, Thwarts, Find;
    if pc.MLoad? { SeenIsMap(home, s, pc.op.pid, act.seen); }
    GoesOn(home, s, act, pc);
  }

  // ---------- the whole call ----------

  ghost predicate Told(home: Pid -> Slot, states: seq<State>, acts: seq<(Tid, Act)>, th: Tid, c: nat, n: nat, pc: PC)
    requires n <= |acts| < |states|
  {
    && (Working(pc) ==> !Thwarted(home, states, acts, th, c, n))
    && (Returns(pc).Some? ==>
          (Returns(pc).value == 0 || Returns(pc).value == -1)
          && (Returns(pc).value == -1 <==> Thwarted(home, states, acts, th, c, n)))
  }

  lemma OneMore(home: Pid -> Slot, states: seq<State>, acts: seq<(Tid, Act)>, th: Tid, c: nat, n: nat)
    requires c <= n < |acts| < |states|
    ensures Thwarted(home, states, acts, th, c, n + 1)
       <==> Thwarted(home, states, acts, th, c, n) || ThwartedAt(home, states, acts, th, n)
  {
    hide ThwartedAt;
  }

  lemma TellNext(home: Pid -> Slot, states: seq<State>, acts: seq<(Tid, Act)>, th: Tid, c: nat, n: nat)
    requires Run(home, states, acts) && Call(states, acts, th, c, n + 1)
    requires c < n ==> Told(home, states, acts, th, c, n, states[n].threads[th])
    ensures Told(home, states, acts, th, c, n + 1, states[n + 1].threads[th])
  {
    hide Next, Inv, Thwarts, Thwarted, Reports;
    var s, act, s' := states[n], acts[n].1, states[n + 1];
    assert Next(home, s, acts[n].0, act, s');
    RunInv(home, states, acts, n);
    hide Run;
    OthersStay(home, s, acts[n].0, act, s', th);
    OneMore(home, states, acts, th, c, n);
    if acts[n].0 == th { StepReturns(home, s, th, act, s'); }
    if c == n { NotYet(home, states, acts, th, c); }
  }

  // At the call nothing has happened.
  lemma NotYet(home: Pid -> Slot, states: seq<State>, acts: seq<(Tid, Act)>, th: Tid, c: nat)
    requires c < |acts| < |states| && th in states[c].threads && states[c].threads[th].Idle?
    ensures !Thwarted(home, states, acts, th, c, c) && !ThwartedAt(home, states, acts, th, c)
    ensures !Working(Idle) && Returns(Idle).None?
  {
  }

  lemma {:induction false} CallTold(home: Pid -> Slot, states: seq<State>, acts: seq<(Tid, Act)>, th: Tid, c: nat,
                                    n: nat)
    requires Run(home, states, acts) && Call(states, acts, th, c, n)
    ensures n <= |acts| < |states| && Told(home, states, acts, th, c, n, states[n].threads[th])
    decreases n
  {
    hide Run, Told;
    if c + 1 < n {
      assert Call(states, acts, th, c, n - 1);
      CallTold(home, states, acts, th, c, n - 1);
    }
    TellNext(home, states, acts, th, c, n - 1);
  }

  // A mutation returns -1 if and only if one of its own steps was thwarted, and 0 otherwise.
  lemma MutationResult(home: Pid -> Slot, states: seq<State>, acts: seq<(Tid, Act)>, th: Tid, c: nat, n: nat)
    requires Run(home, states, acts) && Call(states, acts, th, c, n)
    requires states[n].threads[th].Done? && states[n].threads[th].out.Mutated?
    ensures states[n].threads[th].out.rc == if Thwarted(home, states, acts, th, c, n) then -1 else 0
  {
    hide Run, Thwarted;
    CallTold(home, states, acts, th, c, n);
  }

  // The operation of the call.
  function OpOf(pc: PC): Option<Op> {
    if Working(pc) then Some(pc.op)
    else if Reports(pc).Some? && Reports(pc).value.Mutated? then Some(Reports(pc).value.op)
    else None
  }

  lemma {:induction false} SameOp(home: Pid -> Slot, states: seq<State>, acts: seq<(Tid, Act)>, th: Tid, c: nat, i: nat,
                                  n: nat)
    requires Run(home, states, acts) && Call(states, acts, th, c, n) && c < i <= n
    requires OpOf(states[n].threads[th]).Some?
    ensures OpOf(states[i].threads[th]) == OpOf(states[n].threads[th])
    decreases n
  {
    hide Next, Init;
    if i < n {
      var s, s' := states[n - 1], states[n];
      assert Next(home, s, acts[n - 1].0, acts[n - 1].1, s');
      OthersStay(home, s, acts[n - 1].0, acts[n - 1].1, s', th);
      if acts[n - 1].0 == th { CameFrom(home, s, th, acts[n - 1].1, s'); }
      assert OpOf(s.threads[th]) == OpOf(s'.threads[th]);
      assert Call(states, acts, th, c, n - 1);
      SameOp(home, states, acts, th, c, i, n - 1);
    }
  }

  // No memory at a step of an add that needs some.
  ghost predicate StarvedAt(home: Pid -> Slot, states: seq<State>, acts: seq<(Tid, Act)>, th: Tid, i: nat)
    requires i < |acts| < |states|
  {
    && acts[i].0 == th && th in states[i].threads && acts[i].1.Tau? && !acts[i].1.ok
    && var pc := states[i].threads[th];
       (pc.MPage? && home(pc.op.pid).page !in states[i].pages) || pc.MLoad? || pc.MPush?
  }

  // An add returns 0 if and only if it found memory whenever it needed some, and then it has bound its id.
  lemma AddResult(home: Pid -> Slot, states: seq<State>, acts: seq<(Tid, Act)>, th: Tid, c: nat, n: nat)
    requires Run(home, states, acts) && Call(states, acts, th, c, n)
    requires states[n].threads[th].Done? && states[n].threads[th].out.Mutated? && states[n].threads[th].out.op.Add?
    ensures var out := states[n].threads[th].out;
            && (out.rc == 0 <==> forall i :: c <= i < n ==> !StarvedAt(home, states, acts, th, i))
            && (out.rc == 0 ==> exists m :: c < m <= n && out.op.pid in states[m].table &&
                                            states[m].table[out.op.pid] == out.op.reg)
  {
    hide Run, Thwarts, Harmless, Short;
    var out := states[n].threads[th].out;
    MutationResult(home, states, acts, th, c, n);
    ReturnValue(home, states, acts, th, c, n);
    forall i | c <= i < n
      ensures ThwartedAt(home, states, acts, th, i) <==> StarvedAt(home, states, acts, th, i)
    {
      if c < i { SameOp(home, states, acts, th, c, i, n); }
      StarvedIs(home, states, acts, th, i);
    }
    if out.rc == 0 {
      var m: nat :| AppliedAt(states, acts, th, out.op, c, m, n);
      assert states[m + 1].table[out.op.pid] == out.op.reg;
    }
  }

  lemma StarvedIs(home: Pid -> Slot, states: seq<State>, acts: seq<(Tid, Act)>, th: Tid, i: nat)
    requires i < |acts| < |states|
    requires th in states[i].threads && Pending(states[i].threads[th]) ==> states[i].threads[th].op.Add?
    ensures ThwartedAt(home, states, acts, th, i) <==> StarvedAt(home, states, acts, th, i)
  {
  }
}
