/** What one add or remove does to the map between its call and its return, in every run. */
module RouteCalls {
  import opened Options
  import opened RouteTable
  import opened RouteInvariant
  import opened RouteMutation
  import opened RouteTheorems

  // Thread th is inside one call: idle in state c, busy from there to state n.
  ghost predicate Call(states: seq<State>, acts: seq<(Tid, Act)>, th: Tid, c: nat, n: nat) {
    && c < n < |states| == |acts| + 1
    && th in states[c].threads && states[c].threads[th].Idle?
    && forall i :: c < i <= n ==> th in states[i].threads && !states[i].threads[th].Idle?
  }

  // Step i is th's own and leaves the map alone.
  ghost predicate Harmless(states: seq<State>, acts: seq<(Tid, Act)>, th: Tid, i: nat)
    requires i < |acts| < |states|
  {
    acts[i].0 == th ==> states[i + 1].table == states[i].table
  }

  // Step i is th's own and finds no memory for a retired node.
  ghost predicate Short(states: seq<State>, acts: seq<(Tid, Act)>, th: Tid, i: nat)
    requires i < |acts| < |states|
  {
    acts[i].0 == th && th in states[i].threads && states[i].threads[th].MPush? && acts[i].1.Tau? && !acts[i].1.ok
  }

  ghost predicate Unchanged(states: seq<State>, acts: seq<(Tid, Act)>, th: Tid, c: nat, n: nat) {
    n < |states| == |acts| + 1 && forall i :: c <= i < n ==> Harmless(states, acts, th, i)
  }

  ghost predicate Supplied(states: seq<State>, acts: seq<(Tid, Act)>, th: Tid, c: nat, n: nat) {
    n < |states| == |acts| + 1 && forall i :: c <= i < n ==> !Short(states, acts, th, i)
  }

  // Step m, and no other own step of the call, changes the map, and it does what the operation says; a remove
  // finds a binding to remove.
  ghost predicate AppliedAt(states: seq<State>, acts: seq<(Tid, Act)>, th: Tid, op: Op, c: nat, m: nat, n: nat) {
    && c < m < n < |states| == |acts| + 1
    && acts[m].0 == th && !Harmless(states, acts, th, m)
    && states[m + 1].table == Apply(op, states[m].table)
    && (op.Remove? ==> op.pid in states[m].table)
    && forall i :: c <= i < n && i != m ==> Harmless(states, acts, th, i)
  }

  // ---------- single steps ----------

  predicate Retiring(pc: PC) { pc.MRetire? || pc.MPush? || pc.MRecheck? }

  // Where a mutator can have come from.
  lemma CameFrom(home: Pid -> Slot, s: State, th: Tid, act: Act, s': State)
    requires Next(home, s, th, act, s')
    ensures var pc, pc' := s.threads[th], s'.threads[th];
            && (Pending(pc') ==> pc.Idle? || (Pending(pc) && !pc.MStore? && pc.op == pc'.op))
            && (Retiring(pc') ==> (pc.MStore? || (Retiring(pc) && !Unfed(pc, act))) && pc.op == pc'.op)
            && (Reports(pc').Some? && Reports(pc').value.Mutated? ==> Explains(pc, act, Reports(pc').value))
  {
    assert s.threads[th].MPush? ==> act.Tau?;
    assert s'.threads[th] == NextPC(home, s, act, s.threads[th]);
    hide Next;
    CameFromPC(home, s, act, s.threads[th]);
  }

  // The step finds no memory for a retired node.
  predicate Unfed(pc: PC, act: Act) { pc.MPush? && act.Tau? && !act.ok }

  // A thread that reports `out` after a step from `pc` had reported it, or has just found out.
  predicate Explains(pc: PC, act: Act, out: Outcome)
    requires out.Mutated?
  {
    || Reports(pc) == Some(out)
    || (Pending(pc) && !pc.MStore? && pc.op == out.op && out.rc == -1 && !out.applied)
    || (Retiring(pc) && pc.op == out.op && out.applied && out.rc == if Unfed(pc, act) then -1 else 0)
  }

  lemma CameFromPC(home: Pid -> Slot, s: State, act: Act, pc: PC)
    requires pc.MPush? ==> act.Tau?
    ensures var pc' := NextPC(home, s, act, pc);
            && (Pending(pc') ==> pc.Idle? || (Pending(pc) && !pc.MStore? && pc.op == pc'.op))
            && (Retiring(pc') ==> (pc.MStore? || (Retiring(pc) && !Unfed(pc, act))) && pc.op == pc'.op)
            && (Reports(pc').Some? && Reports(pc').value.Mutated? ==> Explains(pc, act, Reports(pc').value))
  {
    hide Find;
  }

  // A store always changes the map: an add brings a registration that is new, a remove takes one that is there.
  lemma StoreChanges(home: Pid -> Slot, s: State, th: Tid)
    requires Inv(home, s) && th in s.threads && s.threads[th].MStore?
    ensures var op := s.threads[th].op; Apply(op, s.table) != s.table && (op.Remove? ==> op.pid in s.table)
  {
    var op := s.threads[th].op;
    if op.Remove? {
      StoredRemove(home, s, th);
    } else {
      hide GensOk, HeapOk, SlotsOk, TableOk, ThreadsOk, CountOk, LockOk, HolderOk, WatchedOk;
      assert Pending(s.threads[th]) && s.status[op.reg] == InFlight(th);
    }
  }

  // What the map does in a step of th.
  lemma StepTable(home: Pid -> Slot, states: seq<State>, acts: seq<(Tid, Act)>, th: Tid, i: nat)
    requires Run(home, states, acts) && i < |acts| && th in states[i].threads
    ensures states[i].threads[th].MStore? && acts[i].0 == th ==>
              var op := states[i].threads[th].op;
              && !Harmless(states, acts, th, i) && states[i + 1].table == Apply(op, states[i].table)
              && (op.Remove? ==> op.pid in states[i].table)
    ensures !states[i].threads[th].MStore? || acts[i].0 != th ==> Harmless(states, acts, th, i)
  {
    RunInv(home, states, acts, i);
    assert Next(home, states[i], acts[i].0, acts[i].1, states[i + 1]);
    hide Inv, Run, Effect, NextPC, Apply;
    if states[i].threads[th].MStore? { StoreChanges(home, states[i], th); }
  }

  // ---------- the story of a call ----------

  ghost predicate Applied(states: seq<State>, acts: seq<(Tid, Act)>, th: Tid, op: Op, c: nat, n: nat) {
    exists m: nat :: AppliedAt(states, acts, th, op, c, m, n)
  }

  // What has happened so far, told from where the thread is.
  ghost predicate Story(states: seq<State>, acts: seq<(Tid, Act)>, th: Tid, c: nat, n: nat, pc: PC) {
    && (Pending(pc) ==> Unchanged(states, acts, th, c, n) && Supplied(states, acts, th, c, n))
    && (Retiring(pc) ==> Applied(states, acts, th, pc.op, c, n) && Supplied(states, acts, th, c, n))
    && (Reports(pc).Some? && Reports(pc).value.Mutated? ==> Ending(states, acts, th, c, n, Reports(pc).value))
  }

  ghost predicate Ending(states: seq<State>, acts: seq<(Tid, Act)>, th: Tid, c: nat, n: nat, out: Outcome)
    requires out.Mutated?
  {
    && (if out.applied then Applied(states, acts, th, out.op, c, n)
        else out.rc == -1 && Unchanged(states, acts, th, c, n))
    && (Supplied(states, acts, th, c, n) <==> !out.applied || out.rc == 0)
    && (out.rc == 0 || out.rc == -1)
  }

  lemma Longer(states: seq<State>, acts: seq<(Tid, Act)>, th: Tid, c: nat, n: nat)
    requires c <= n < |acts| && |states| == |acts| + 1
    ensures Unchanged(states, acts, th, c, n) && Harmless(states, acts, th, n) ==> Unchanged(states, acts, th, c, n + 1)
    ensures Supplied(states, acts, th, c, n + 1) <==> Supplied(states, acts, th, c, n) && !Short(states, acts, th, n)
  {
    hide Harmless, Short;
  }

  lemma LongerApplied(states: seq<State>, acts: seq<(Tid, Act)>, th: Tid, op: Op, c: nat, n: nat)
    requires c <= n < |acts| && |states| == |acts| + 1
    ensures Applied(states, acts, th, op, c, n) && Harmless(states, acts, th, n) ==>
              Applied(states, acts, th, op, c, n + 1)
  {
    hide Harmless;
    if Applied(states, acts, th, op, c, n) && Harmless(states, acts, th, n) {
      var m: nat :| AppliedAt(states, acts, th, op, c, m, n);
      assert AppliedAt(states, acts, th, op, c, m, n + 1);
    }
  }

  lemma {:induction false} CallStory(home: Pid -> Slot, states: seq<State>, acts: seq<(Tid, Act)>, th: Tid, c: nat,
                                     n: nat)
    requires Run(home, states, acts) && Call(states, acts, th, c, n)
    ensures Story(states, acts, th, c, n, states[n].threads[th])
    decreases n
  {
    hide Run, Story;
    if c + 1 == n {
      FirstStep(home, states, acts, th, c);
    } else {
      assert Call(states, acts, th, c, n - 1);
      CallStory(home, states, acts, th, c, n - 1);
      NextStep(home, states, acts, th, c, n - 1);
    }
  }

  lemma FirstStep(home: Pid -> Slot, states: seq<State>, acts: seq<(Tid, Act)>, th: Tid, c: nat)
    requires Run(home, states, acts) && Call(states, acts, th, c, c + 1)
    ensures Story(states, acts, th, c, c + 1, states[c + 1].threads[th])
  {
    StepTable(home, states, acts, th, c);
    assert Next(home, states[c], acts[c].0, acts[c].1, states[c + 1]);
    hide Run, Harmless, Effect, Apply;
    Longer(states, acts, th, c, c);
    assert Unchanged(states, acts, th, c, c) && Supplied(states, acts, th, c, c);
  }

  lemma NextStep(home: Pid -> Slot, states: seq<State>, acts: seq<(Tid, Act)>, th: Tid, c: nat, n: nat)
    requires Run(home, states, acts) && Call(states, acts, th, c, n + 1) && c < n
    requires Story(states, acts, th, c, n, states[n].threads[th])
    ensures Story(states, acts, th, c, n + 1, states[n + 1].threads[th])
  {
    hide Harmless, Short, Next, Inv, Unchanged, Supplied, Applied, Apply;
    var pc, pc' := states[n].threads[th], states[n + 1].threads[th];
    assert Next(home, states[n], acts[n].0, acts[n].1, states[n + 1]);
    StepTable(home, states, acts, th, n);
    hide Run;
    ShortIs(states, acts, th, n);
    OthersStay(home, states[n], acts[n].0, acts[n].1, states[n + 1], th);
    Longer(states, acts, th, c, n);
    if Retiring(pc) { LongerApplied(states, acts, th, pc.op, c, n); }
    if Reports(pc).Some? && Reports(pc).value.Mutated? { LongerApplied(states, acts, th, Reports(pc).value.op, c, n); }
    if acts[n].0 == th { CameFrom(home, states[n], th, acts[n].1, states[n + 1]); }
    if pc.MStore? && acts[n].0 == th { JustApplied(states, acts, th, pc.op, c, n); }
  }

  lemma ShortIs(states: seq<State>, acts: seq<(Tid, Act)>, th: Tid, n: nat)
    requires n < |acts| < |states| && th in states[n].threads
    ensures Short(states, acts, th, n) <==> acts[n].0 == th && Unfed(states[n].threads[th], acts[n].1)
  {
  }

  lemma JustApplied(states: seq<State>, acts: seq<(Tid, Act)>, th: Tid, op: Op, c: nat, m: nat)
    requires c < m < |acts| && |states| == |acts| + 1 && Unchanged(states, acts, th, c, m) && acts[m].0 == th
    requires !Harmless(states, acts, th, m) && states[m + 1].table == Apply(op, states[m].table)
    requires op.Remove? ==> op.pid in states[m].table
    ensures Applied(states, acts, th, op, c, m + 1)
  {
    hide Harmless, Apply;
    assert AppliedAt(states, acts, th, op, c, m, m + 1);
  }

  // ---------- theorems ----------

  lemma {:induction false} CallStart(home: Pid -> Slot, states: seq<State>, acts: seq<(Tid, Act)>, th: Tid, n: nat)
    returns (c: nat)
    requires Run(home, states, acts) && n < |states| && th in states[n].threads && !states[n].threads[th].Idle?
    ensures Call(states, acts, th, c, n)
    decreases n
  {
    assert n > 0;
    assert Next(home, states[n - 1], acts[n - 1].0, acts[n - 1].1, states[n]);
    OthersStay(home, states[n - 1], acts[n - 1].0, acts[n - 1].1, states[n], th);
    hide Run, Next;
    if states[n - 1].threads[th].Idle? {
      c := n - 1;
    } else {
      c := CallStart(home, states, acts, th, n - 1);
    }
  }

  // Past its slot store.
  predicate PastStore(pc: PC, op: Op) {
    || (Retiring(pc) && pc.op == op)
    || (Reports(pc).Some? && Reports(pc).value.Mutated? && Reports(pc).value.op == op && Reports(pc).value.applied)
  }

  // Not yet, and never to be, applied.
  predicate Unapplied(pc: PC, op: Op) {
    || (Pending(pc) && pc.op == op)
    || (Reports(pc).Some? && Reports(pc).value.Mutated? && Reports(pc).value.op == op && !Reports(pc).value.applied)
  }

  // A mutation past its store has applied its operation to the map in exactly one step of its own since its
  // call; a remove has removed a binding that was there.
  lemma MutationLinearizes(home: Pid -> Slot, states: seq<State>, acts: seq<(Tid, Act)>, n: nat, th: Tid, op: Op)
    requires Run(home, states, acts) && n < |states| && th in states[n].threads && PastStore(states[n].threads[th], op)
    ensures exists c: nat, m: nat :: Call(states, acts, th, c, n) && AppliedAt(states, acts, th, op, c, m, n)
  {
    hide Run, Call, AppliedAt, Unchanged, Supplied;
    var c := CallStart(home, states, acts, th, n);
    CallStory(home, states, acts, th, c, n);
    var m: nat :| AppliedAt(states, acts, th, op, c, m, n);
  }

  // A mutation that has not published, and one that reports failure without publishing, has changed nothing in
  // any of its own steps.
  lemma FailedMutation(home: Pid -> Slot, states: seq<State>, acts: seq<(Tid, Act)>, n: nat, th: Tid, op: Op)
    requires Run(home, states, acts) && n < |states| && th in states[n].threads && Unapplied(states[n].threads[th], op)
    ensures exists c: nat :: Call(states, acts, th, c, n) && Unchanged(states, acts, th, c, n)
  {
    hide Run, Call, Unchanged, Supplied;
    var c := CallStart(home, states, acts, th, n);
    CallStory(home, states, acts, th, c, n);
  }

  // What the caller of an add or remove can tell from its return value: 0 means the operation took effect; -1
  // means it did not, unless the allocation of the retired node failed in this very call.
  lemma ReturnValue(home: Pid -> Slot, states: seq<State>, acts: seq<(Tid, Act)>, th: Tid, c: nat, n: nat)
    requires Run(home, states, acts) && Call(states, acts, th, c, n)
    requires states[n].threads[th].Done? && states[n].threads[th].out.Mutated?
    ensures var out := states[n].threads[th].out;
            && (out.rc == 0 || out.rc == -1)
            && (out.rc == 0 ==> Applied(states, acts, th, out.op, c, n))
            && (out.rc == -1 && !Unchanged(states, acts, th, c, n) <==>
                  exists i :: c <= i < n && Short(states, acts, th, i))
            && (!Unchanged(states, acts, th, c, n) <==> Applied(states, acts, th, out.op, c, n))
  {
    hide Run, Short;
    CallStory(home, states, acts, th, c, n);
    var out := states[n].threads[th].out;
    if Applied(states, acts, th, out.op, c, n) {
      var m: nat :| AppliedAt(states, acts, th, out.op, c, m, n);
      assert !Harmless(states, acts, th, m);
    }
  }

  // ---------- a remove that finds nothing ----------

  // In state m, inside the call, the id is not in the map, or the call's own step m finds no memory for a copy.
  ghost predicate MissedAt(states: seq<State>, acts: seq<(Tid, Act)>, th: Tid, pid: Pid, m: nat, n: nat) {
    && m < n && |states| == |acts| + 1 && Within(states, th, m, n) && acts[m].0 == th
    && (pid in states[m].table ==> states[m].threads[th].MLoad? && acts[m].1.Tau? && !acts[m].1.ok)
  }

  predicate ReportsMiss(pc: PC, pid: Pid) {
    Reports(pc) == Some(Mutated(Remove(pid), -1, false))
  }

  lemma MissPC(home: Pid -> Slot, s: State, act: Act, pc: PC, pid: Pid)
    requires ReportsMiss(NextPC(home, s, act, pc), pid) && !ReportsMiss(pc, pid)
    ensures pc == MPage(Remove(pid)) || pc == MLoad(Remove(pid))
    ensures pc.MPage? ==> home(pid).page !in s.pages
    ensures pc.MLoad? && act.Tau? && act.ok ==> Find(act.seen, pid).None?
  {
    hide Find;
  }

  lemma LoadReads(home: Pid -> Slot, s: State, th: Tid, act: Act, s': State)
    requires Next(home, s, th, act, s') && s.threads[th].MLoad?
    ensures act.Tau? && Reads(s.heap, SlotPtr(s.slots, home(s.threads[th].op.pid)), act.seen)
  {
    hide NextPC, Reads, Built, Apply;
  }

  // A single step: the page is absent, or the chain does not hold the id, or memory ran out.
  lemma MissStep(home: Pid -> Slot, s: State, th: Tid, act: Act, s': State, pid: Pid)
    requires Inv(home, s) && Next(home, s, th, act, s') && ReportsMiss(s'.threads[th], pid)
    ensures ReportsMiss(s.threads[th], pid) || pid !in s.table || (s.threads[th].MLoad? && act.Tau? && !act.ok)
    ensures !s.threads[th].Idle?
  {
    var pc := s.threads[th];
    assert s'.threads[th] == NextPC(home, s, act, pc);
    if !ReportsMiss(pc, pid) {
      MissPC(home, s, act, pc, pid);
      if pc.MLoad? { LoadReads(home, s, th, act, s'); }
      hide Next, Reads, Find, Inv, NextPC;
      if pc.MPage? {
        AbsentPage(home, s, pid);
      } else if act.ok {
        AbsentNode(home, s, pid, act.seen);
      }
    }
  }

  lemma IdleReportsNothing(pid: Pid)
    ensures !ReportsMiss(Idle, pid)
  {
  }

  lemma AbsentPage(home: Pid -> Slot, s: State, pid: Pid)
    requires Inv(home, s) && home(pid).page !in s.pages
    ensures pid !in s.table
  {
    hide GensOk, HeapOk, StatusOk, ThreadsOk, CountOk, LockOk, FlightOk, HolderOk, WatchedOk;
    assert home(pid) !in s.cur;
    assert Get(s.table, pid) == Find(CurPairs(s.cur, s.gens, home(pid)), pid);
  }

  lemma AbsentNode(home: Pid -> Slot, s: State, pid: Pid, seen: Pairs)
    requires Inv(home, s) && Reads(s.heap, SlotPtr(s.slots, home(pid)), seen) && Find(seen, pid).None?
    ensures pid !in s.table
  {
    hide Find, CurPairs, GensOk, HeapOk, SlotsOk, StatusOk, ThreadsOk, CountOk, LockOk, FlightOk, HolderOk, WatchedOk;
    SeenIsCurrent(home, s, home(pid), seen);
    assert Get(s.table, pid) == Find(CurPairs(s.cur, s.gens, home(pid)), pid);
  }

  // A remove that returns -1 without having removed anything: at some state inside the call the id is not in the
  // map, or an allocation of the call failed.
  lemma {:induction false} MissedRemove(home: Pid -> Slot, states: seq<State>, acts: seq<(Tid, Act)>, n: nat, th: Tid,
                                        pid: Pid)
    requires Run(home, states, acts) && n < |states| && th in states[n].threads
    requires ReportsMiss(states[n].threads[th], pid)
    ensures exists m: nat :: MissedAt(states, acts, th, pid, m, n)
    decreases n
  {
    hide Next, Inv, Reports;
    assert !ReportsMiss(Idle, pid) by { IdleReportsNothing(pid); }
    assert n > 0;
    RunInv(home, states, acts, n - 1);
    var s, act := states[n - 1], acts[n - 1].1;
    assert Next(home, s, acts[n - 1].0, act, states[n]);
    hide Run;
    OthersStay(home, s, acts[n - 1].0, act, states[n], th);
    if acts[n - 1].0 == th { MissStep(home, s, th, act, states[n], pid); }
    if ReportsMiss(s.threads[th], pid) {
      MissedRemove(home, states, acts, n - 1, th, pid);
      var m: nat :| MissedAt(states, acts, th, pid, m, n - 1);
      assert MissedAt(states, acts, th, pid, m, n);
    } else {
      assert MissedAt(states, acts, th, pid, n - 1, n);
    }
  }
}
