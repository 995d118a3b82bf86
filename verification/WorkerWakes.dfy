/** A worker does not sleep on completed calls. */
module WorkerWakes {
  import opened Worker
  import opened WorkerTheorems

  // The worker will not look at the completed queue again before it polls.
  predicate Resting(pc: PC) {
    pc.Poll? || pc.Flushing? || (pc.Draining? && pc.back.None?)
  }

  ghost predicate SomeoneOwes(attempts: map<Tid, Attempt>) {
    exists th :: th in attempts && attempts[th].Owing?
  }

  ghost predicate WakeOk(s: State) {
    s.completed != [] && Resting(s.pc) ==> s.wake || SomeoneOwes(s.attempts)
  }

  lemma AttemptWakes(s: State, th: Tid, s': State)
    requires AttemptStep(s, th, s') && WakeOk(s)
    ensures WakeOk(s')
  {
    if t :| t in s.attempts && s.attempts[t].Owing? && t != th {
      assert s'.attempts[t].Owing?;
    }
    if s.attempts[th].Stored? { assert s'.attempts[th].Owing?; }
  }

  lemma BeginWakes(s: State, th: Tid, d: Did, rc: int, s': State)
    requires BeginStep(s, th, d, rc, s') && WakeOk(s)
    ensures WakeOk(s')
  {
    if t :| t in s.attempts && s.attempts[t].Owing? {
      assert s'.attempts[t].Owing?;
    }
  }

  ghost predicate SameWakes(s: State, s': State) {
    s'.completed == s.completed && s'.attempts == s.attempts && s'.wake == s.wake
  }

  lemma DrainSame(s: State, d: Did, append: Append)
    requires d in s.calls && s.calls[d].conn in s.conns
    ensures SameWakes(s, DrainCall(s, d, append))
  {
    hide Remove;
  }

  lemma CloseSame(s: State, c: Cid)
    requires c in s.conns
    ensures SameWakes(s, MaybeClose(s, c))
  {
    hide Remove;
  }

  // The worker comes to rest only by emptying the queue.
  lemma BatchRests(s: State, evs: seq<Event>, act: Act, s': State)
    requires BatchStep(s, evs, act, s') && s.pc == Batch(evs)
    ensures Resting(s'.pc) ==> s'.completed == []
  {
    if evs != [] {
      match evs[0]
      case Wake => if act.Accepts? {} else {}
      case Listener =>
      case On(_, _, _) =>
    }
  }

  lemma ReadRests(s: State, act: Act, s': State)
    requires s.pc.Reading? && ReadStep(s, s.pc, act, s')
    ensures !Resting(s'.pc)
  {
  }

  lemma DrainRests(s: State, act: Act, s': State)
    requires WorkStep(s, act, s') && s.pc.Draining?
    ensures SameWakes(s, s') && (Resting(s'.pc) ==> Resting(s.pc))
  {
    hide DrainCall;
    if s.pc.todo != [] { DrainSame(s, s.pc.todo[0], act.append); }
  }

  lemma FlushRests(s: State, act: Act, s': State)
    requires WorkStep(s, act, s') && s.pc.Flushing?
    ensures SameWakes(s, s')
  {
    hide MaybeClose, Write;
    if s.pc.conns != [] {
      var c := s.pc.conns[0];
      var k := s.conns[c].(writeQueued := false);
      CloseSame(SetConn(s, c, if k.unsent then Write(k, act.sent) else k), c);
    }
  }

  lemma OtherRests(s: State, act: Act, s': State)
    requires WorkStep(s, act, s')
    requires s.pc.Poll? || s.pc.Handling? || s.pc.Failing? || s.pc.Writing? || s.pc.Closing?
    ensures !Resting(s'.pc)
  {
    hide MaybeClose, Write, EventsOk;
  }

  lemma WorkWakes(s: State, act: Act, s': State)
    requires WorkStep(s, act, s') && WakeOk(s)
    ensures WakeOk(s')
  {
    hide SomeoneOwes;
    match s.pc
    case Batch(evs) => BatchRests(s, evs, act, s');
    case Reading(_, _, _) => ReadRests(s, act, s');
    case Draining(_, _) =>
      hide WorkStep;
      DrainRests(s, act, s');
    case Flushing(_) =>
      hide WorkStep;
      FlushRests(s, act, s');
    case _ =>
      hide WorkStep;
      OtherRests(s, act, s');
  }

  lemma WakesNext(s: State, act: Act, s': State)
    requires Next(s, act, s') && WakeOk(s)
    ensures WakeOk(s')
  {
    hide WorkStep, AttemptStep, BeginStep;
    match act
    case Begin(th, d, rc) => BeginWakes(s, th, d, rc, s');
    case Attempt(th) => AttemptWakes(s, th, s');
    case Nudge =>
    case _ => WorkWakes(s, act, s');
  }

  lemma {:induction false} RunWakes(states: seq<State>, acts: seq<Act>, i: nat)
    requires Run(states, acts) && i < |states|
    ensures WakeOk(states[i])
  {
    hide Next;
    if i > 0 {
      RunWakes(states, acts, i - 1);
      hide WakeOk;
      WakesNext(states[i - 1], acts[i - 1], states[i]);
    }
  }

  // In every reachable state: when the worker is about to block in poll while completed calls wait, a wake is pending
  // or some thread is between queueing its call and its wake.
  lemma NeverAsleep(s: State)
    requires Reachable(s) && s.pc.Poll? && s.completed != []
    ensures s.wake || exists th :: th in s.attempts && s.attempts[th].Owing?
  {
    hide Next, Init;
    var states, acts :| Run(states, acts) && s == states[|acts|];
    RunWakes(states, acts, |acts|);
  }
}
