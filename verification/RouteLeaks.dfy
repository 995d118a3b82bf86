/** What is leaked, and exactly when: the retired node of an add or remove that could not be allocated. */
module RouteLeaks {
  import opened Options
  import opened RouteTable
  import opened RouteInvariant
  import opened RouteMutation
  import opened RouteTheorems

  // Nothing has been leaked.
  ghost predicate Tight(gens: seq<Gen>, status: map<Reg, Status>) {
    && (forall t :: 0 <= t < |gens| ==> gens[t].stage != Leaked)
    && (forall r :: r in status ==> status[r] != Lost)
  }

  lemma TightCopy(home: Pid -> Slot, s: State, op: Op, act: Act, s': State)
    requires CopyStep(home, s, op, act, s') && Tight(s.gens, s.status)
    ensures Tight(s'.gens, s'.status)
  {
    CopyShape(home, s, op, act, s');
    hide CopyStep;
  }

  lemma CopyShape(home: Pid -> Slot, s: State, op: Op, act: Act, s': State)
    requires CopyStep(home, s, op, act, s')
    ensures || (s'.gens == s.gens && s'.status == Reset(s.status, op, Failed))
            || (|s'.gens| == |s.gens| + 1 && s'.gens[..|s.gens|] == s.gens && s'.gens[|s.gens|].stage == Fresh &&
                s'.status == s.status)
  {
    hide Built, Reads, Rebuilt, GivesUp, Reset;
  }

  lemma TightPush(s: State, pc: PC, act: Act, s': State)
    requires pc.MPush? && PushStep(s, pc, act, s') && act.ok && Tight(s.gens, s.status)
    ensures Tight(s'.gens, s'.status)
  {
  }

  lemma TightFree(s: State, pc: PC, s': State)
    requires pc.Freeing? && FreeStep(s, pc, s') && Tight(s.gens, s.status)
    ensures Tight(s'.gens, s'.status)
  {
    FreeShape(s, pc, s');
    if pc.work != [] {
      var e := pc.work[0];
      StageTight(s.gens, Some(e.tok), Gone, s.gens[e.tok].freed);
      StageTight(s.gens, Some(e.tok), Doomed, s.gens[e.tok].freed + 1);
    }
    hide SetStage, FreeStep;
  }

  lemma FreeShape(s: State, pc: PC, s': State)
    requires pc.Freeing? && FreeStep(s, pc, s')
    ensures pc.work == [] ==> s'.gens == s.gens && s'.status == s.status
    ensures pc.work != [] ==>
              var e := pc.work[0];
              && e.tok < |s.gens|
              && (s'.gens == SetStage(s.gens, Some(e.tok), Gone, s.gens[e.tok].freed) ||
                  s'.gens == SetStage(s.gens, Some(e.tok), Doomed, s.gens[e.tok].freed + 1))
              && (forall r :: r in s'.status && s'.status[r] == Lost ==> r in s.status && s.status[r] == Lost)
  {
    hide SetStage;
  }

  lemma StageTight(gens: seq<Gen>, t: Option<Token>, stage: Stage, freed: nat)
    requires (forall u :: 0 <= u < |gens| ==> gens[u].stage != Leaked) && stage != Leaked
    ensures forall u :: 0 <= u < |SetStage(gens, t, stage, freed)| ==>
              SetStage(gens, t, stage, freed)[u].stage != Leaked
  {
  }

  lemma TightStore(home: Pid -> Slot, s: State, pc: PC, s': State)
    requires pc.MStore? && StoreStep(home, s, pc, s') && Tight(s.gens, s.status)
    ensures Tight(s'.gens, s'.status)
  {
    hide IndexOf;
  }

  lemma TightBegin(s: State, th: Tid, act: Act, s': State)
    requires BeginStep(s, th, act, s') && Tight(s.gens, s.status)
    ensures Tight(s'.gens, s'.status)
  {
  }

  lemma TightTake(s: State, s': State)
    requires TakeStep(s, s') && Tight(s.gens, s.status)
    ensures Tight(s'.gens, s'.status)
  {
  }

  lemma TightPage(home: Pid -> Slot, s: State, op: Op, act: Act, s': State)
    requires PageStep(home, s, op, act, s') && Tight(s.gens, s.status)
    ensures Tight(s'.gens, s'.status)
  {
  }

  lemma TightRetire(s: State, pc: PC, s': State)
    requires pc.MRetire? && RetireStep(s, pc, s') && Tight(s.gens, s.status)
    ensures Tight(s'.gens, s'.status)
  {
  }

  // Only a failed allocation of a retired node leaks.
  lemma NextTight(home: Pid -> Slot, s: State, th: Tid, act: Act, s': State)
    requires Next(home, s, th, act, s') && Tight(s.gens, s.status)
    requires s.threads[th].MPush? ==> act.Tau? && act.ok
    ensures Tight(s'.gens, s'.status)
  {
    hide NextPC, Apply, CopyStep, PushStep, FreeStep, StoreStep, SetStage, BeginStep, TakeStep, PageStep, RetireStep,
         Tight;
    var pc := s.threads[th];
    if pc.Idle? {
      TightBegin(s, th, act, s');
    } else if pc.RFree? || pc.MRecheck? {
      TightTake(s, s');
    } else if pc.MPage? {
      TightPage(home, s, pc.op, act, s');
    } else if pc.MLoad? {
      TightCopy(home, s, pc.op, act, s');
    } else if pc.MPush? {
      TightPush(s, pc, act, s');
    } else if pc.Freeing? {
      TightFree(s, pc, s');
    } else if pc.MStore? {
      TightStore(home, s, pc, s');
    } else if pc.MRetire? {
      TightRetire(s, pc, s');
    } else {
      hide Effect;
      TightOther(home, s, th, act, pc, s');
    }
  }

  lemma TightOther(home: Pid -> Slot, s: State, th: Tid, act: Act, pc: PC, s': State)
    requires Effect(home, s, th, act, pc, s') && Tight(s.gens, s.status)
    requires pc.RPage? || pc.RSlot? || pc.RWalk? || pc.RLeave? || pc.ROwe? || pc.MWait? || pc.MPageStore? || pc.Unlock?
             || pc.Done?
    ensures Tight(s'.gens, s'.status)
  {
    hide Tight;
  }

  // Every retired node of the run could be allocated.
  ghost predicate NeverShort(states: seq<State>, acts: seq<(Tid, Act)>) {
    && |states| == |acts| + 1
    && forall i :: 0 <= i < |acts| && acts[i].0 in states[i].threads && states[i].threads[acts[i].0].MPush? ==>
         acts[i].1.Tau? && acts[i].1.ok
  }

  // ---------- a leak is for good ----------

  ghost predicate LeakedAt(gens: seq<Gen>, t: Token) {
    t < |gens| && gens[t].stage == Leaked
  }

  lemma StoreKeepsLeak(home: Pid -> Slot, s: State, th: Tid, s': State, t: Token)
    requires Inv(home, s) && th in s.threads && s.threads[th].MStore? && StoreStep(home, s, s.threads[th], s')
    requires LeakedAt(s.gens, t)
    ensures LeakedAt(s'.gens, t)
  {
    hide Inv, StoreStep;
    StoreFacts(home, s, th);
    StoreSwaps(home, s, s.threads[th], s');
    hide Swapped, IndexOf;
    SwapsKeepLeak(s.gens, s.threads[th], t);
  }

  // The store publishes a fresh generation in the place of a published one.
  lemma StoreFacts(home: Pid -> Slot, s: State, th: Tid)
    requires Inv(home, s) && th in s.threads && s.threads[th].MStore?
    ensures var pc := s.threads[th];
            && pc.newTok < |s.gens| && s.gens[pc.newTok].stage == Fresh
            && (pc.prevTok.Some? ==> pc.prevTok.value < |s.gens| && s.gens[pc.prevTok.value].stage == Published)
  {
    StoreReadyHolds(home, s, th);
    hide GensOk, HeapOk, TableOk, StatusOk, ThreadsOk, CountOk, LockOk, FlightOk, HolderOk, WatchedOk, Rebuilt, Find,
         CurPairs;
  }

  lemma StoreSwaps(home: Pid -> Slot, s: State, pc: PC, s': State)
    requires pc.MStore? && StoreStep(home, s, pc, s')
    ensures s'.gens == Swapped(s.gens, pc)
  {
    hide Swapped, SwappedStatus;
  }

  lemma SwapsKeepLeak(gens: seq<Gen>, pc: PC, t: Token)
    requires pc.MStore? && LeakedAt(gens, t) && pc.newTok < |gens| && gens[pc.newTok].stage == Fresh
    requires pc.prevTok.Some? ==> pc.prevTok.value < |gens| && gens[pc.prevTok.value].stage == Published
    ensures LeakedAt(Swapped(gens, pc), t)
  {
    hide IndexOf;
  }

  lemma RetireFacts(home: Pid -> Slot, s: State, th: Tid)
    requires Inv(home, s) && th in s.threads && (s.threads[th].MRetire? || s.threads[th].MPush?)
    ensures var pc := s.threads[th];
            && (pc.prevTok.Some? ==> pc.prevTok.value < |s.gens| && s.gens[pc.prevTok.value].stage == Unlinked)
            && (pc.MPush? ==> pc.prevTok.Some?)
  {
    hide GensOk, HeapOk, SlotsOk, TableOk, StatusOk, ThreadsOk, CountOk, FlightOk, WatchedOk, StageOk, ListOk,
         StoreReady;
    assert Holder(s.threads, s.lock) == s.threads[th];
  }

  lemma FreeFacts(home: Pid -> Slot, s: State, th: Tid)
    requires Inv(home, s) && th in s.threads && s.threads[th].Freeing? && s.threads[th].work != []
    ensures var e := s.threads[th].work[0]; e.tok < |s.gens| && s.gens[e.tok].stage == Doomed
  {
    hide GensOk, HeapOk, SlotsOk, TableOk, StatusOk, ThreadsOk, CountOk, FlightOk, WatchedOk, StageOk, StoreReady,
         RetireReady;
    assert Holder(s.threads, s.lock) == s.threads[th];
    assert Fits(s.threads[th].work[0], s.gens, Doomed);
  }

  lemma CopyKeepsLeak(home: Pid -> Slot, s: State, op: Op, act: Act, s': State, t: Token)
    requires CopyStep(home, s, op, act, s') && LeakedAt(s.gens, t)
    ensures LeakedAt(s'.gens, t)
  {
    hide Built, Reads, Rebuilt, GivesUp;
  }

  lemma FreeKeepsLeak(home: Pid -> Slot, s: State, th: Tid, s': State, t: Token)
    requires Inv(home, s) && th in s.threads && s.threads[th].Freeing? && FreeStep(s, s.threads[th], s')
    requires LeakedAt(s.gens, t)
    ensures LeakedAt(s'.gens, t)
  {
    hide Inv;
    if s.threads[th].work != [] { FreeFacts(home, s, th); }
  }

  lemma RetireKeepsLeak(home: Pid -> Slot, s: State, th: Tid, act: Act, s': State, t: Token)
    requires Inv(home, s) && th in s.threads && LeakedAt(s.gens, t)
    requires (s.threads[th].MRetire? && RetireStep(s, s.threads[th], s'))
             || (s.threads[th].MPush? && PushStep(s, s.threads[th], act, s'))
    ensures LeakedAt(s'.gens, t)
  {
    hide Inv;
    RetireFacts(home, s, th);
  }

  lemma OtherKeepsLeak(home: Pid -> Slot, s: State, th: Tid, act: Act, pc: PC, s': State, t: Token)
    requires Effect(home, s, th, act, pc, s') && LeakedAt(s.gens, t)
    requires !(pc.MLoad? || pc.MStore? || pc.MRetire? || pc.MPush? || pc.Freeing?)
    ensures LeakedAt(s'.gens, t)
  {
  }

  // A leaked chain stays leaked.
  lemma LeakStays(home: Pid -> Slot, s: State, th: Tid, act: Act, s': State, t: Token)
    requires Inv(home, s) && Next(home, s, th, act, s') && LeakedAt(s.gens, t)
    ensures LeakedAt(s'.gens, t)
  {
    hide NextPC, Apply, CopyStep, PushStep, FreeStep, StoreStep, RetireStep, Inv, LeakedAt;
    var pc := s.threads[th];
    if pc.MLoad? {
      CopyKeepsLeak(home, s, pc.op, act, s', t);
    } else if pc.MStore? {
      StoreKeepsLeak(home, s, th, s', t);
    } else if pc.MRetire? || pc.MPush? {
      RetireKeepsLeak(home, s, th, act, s', t);
    } else if pc.Freeing? {
      FreeKeepsLeak(home, s, th, s', t);
    } else {
      hide Effect;
      OtherKeepsLeak(home, s, th, act, pc, s', t);
    }
  }

  // Without memory for the retired node the old chain is leaked, and the registration it was to finalize is lost.
  lemma ShortLeaks(home: Pid -> Slot, s: State, th: Tid, act: Act, s': State)
    requires Inv(home, s) && Next(home, s, th, act, s') && s.threads[th].MPush? && act.Tau? && !act.ok
    ensures var t := s.threads[th].prevTok;
            && t.Some? && LeakedAt(s'.gens, t.value)
            && (FinReg(s.gens[t.value]).Some? ==>
                  FinReg(s.gens[t.value]).value in s'.status && s'.status[FinReg(s.gens[t.value]).value] == Lost)
  {
    hide Inv, NextPC, Apply;
    OnThread(home, s, th, act, s');
    RetireFacts(home, s, th);
    assert PushStep(s, s.threads[th], act, s');
    hide Next;
    PushLeaks(s, s.threads[th], act, s');
  }

  lemma PushLeaks(s: State, pc: PC, act: Act, s': State)
    requires pc.MPush? && PushStep(s, pc, act, s') && !act.ok && pc.prevTok.Some? && pc.prevTok.value < |s.gens|
    ensures var t := pc.prevTok.value;
            && LeakedAt(s'.gens, t)
            && (FinReg(s.gens[t]).Some? ==>
                  FinReg(s.gens[t]).value in s'.status && s'.status[FinReg(s.gens[t]).value] == Lost)
  {
    hide FinReg;
  }

  lemma {:induction false} RunTight(home: Pid -> Slot, states: seq<State>, acts: seq<(Tid, Act)>, i: nat)
    requires Run(home, states, acts) && NeverShort(states, acts) && i < |states|
    ensures Tight(states[i].gens, states[i].status)
  {
    hide Next;
    if i > 0 {
      RunTight(home, states, acts, i - 1);
      hide Tight;
      assert acts[i - 1].0 in states[i - 1].threads by {
        OnThread(home, states[i - 1], acts[i - 1].0, acts[i - 1].1, states[i]);
      }
      NextTight(home, states[i - 1], acts[i - 1].0, acts[i - 1].1, states[i]);
    }
  }

  lemma OnThread(home: Pid -> Slot, s: State, th: Tid, act: Act, s': State)
    requires Next(home, s, th, act, s')
    ensures th in s.threads
  {
    hide Effect, NextPC;
  }

  lemma {:induction false} LeakLasts(home: Pid -> Slot, states: seq<State>, acts: seq<(Tid, Act)>, t: Token, i: nat,
                                     n: nat)
    requires Run(home, states, acts) && i <= n < |states| && LeakedAt(states[i].gens, t)
    ensures LeakedAt(states[n].gens, t)
    decreases n
  {
    hide Next, LeakedAt, Inv, Init;
    if i < n {
      LeakLasts(home, states, acts, t, i, n - 1);
      RunInv(home, states, acts, n - 1);
      assert Next(home, states[n - 1], acts[n - 1].0, acts[n - 1].1, states[n]);
      hide Run;
      LeakStays(home, states[n - 1], acts[n - 1].0, acts[n - 1].1, states[n], t);
    }
  }

  // A run leaks or loses something if and only if some retired node of it could not be allocated.
  lemma TightIffNeverShort(home: Pid -> Slot, states: seq<State>, acts: seq<(Tid, Act)>)
    requires Run(home, states, acts)
    ensures Tight(states[|acts|].gens, states[|acts|].status) <==> NeverShort(states, acts)
  {
    hide Next;
    if NeverShort(states, acts) {
      RunTight(home, states, acts, |acts|);
    } else {
      var i :| 0 <= i < |acts| && acts[i].0 in states[i].threads && states[i].threads[acts[i].0].MPush?
            && !(acts[i].1.Tau? && acts[i].1.ok);
      PushIsTau(home, states[i], acts[i].0, acts[i].1, states[i + 1]);
      RunInv(home, states, acts, i);
      ShortLeaks(home, states[i], acts[i].0, acts[i].1, states[i + 1]);
      var t := states[i].threads[acts[i].0].prevTok.value;
      LeakLasts(home, states, acts, t, i + 1, |acts|);
      assert states[|acts|].gens[t].stage == Leaked;
    }
  }

  lemma PushIsTau(home: Pid -> Slot, s: State, th: Tid, act: Act, s': State)
    requires Next(home, s, th, act, s') && s.threads[th].MPush?
    ensures act.Tau?
  {
    hide NextPC;
  }
}
