/** The reply to a deferred call says what the attempt that won it said. */
module WorkerResults {
  import opened Options
  import opened Worker
  import opened WorkerInvariant
  import opened WorkerTheorems

  // A call, by its serial, and the result that the attempt which won it brought.
  type Victory = (nat, int)

  // The attempt that a step lets win, if it does.
  function WinOf(s: State, act: Act): set<Victory> {
    if act.Attempt? && act.th in s.attempts && s.attempts[act.th].Trying? && s.attempts[act.th].call in s.calls
       && !s.calls[s.attempts[act.th].call].completed
    then {(s.attempts[act.th].serial, s.attempts[act.th].rc)} else {}
  }

  // The wins of the first n steps.
  function Wins(states: seq<State>, acts: seq<Act>, n: nat): set<Victory>
    requires n <= |acts| < |states|
  {
    if n == 0 then {} else Wins(states, acts, n - 1) + WinOf(states[n - 1], acts[n - 1])
  }

  ghost predicate AttemptFine(a: Attempt, wins: set<Victory>) {
    a.Won? ==> (a.serial, a.rc) in wins
  }

  ghost predicate CallFine(call: Call, wins: set<Victory>) {
    call.result.Some? ==> (call.serial, call.result.value) in wins
  }

  ghost predicate ReplyFine(r: Reply, wins: set<Victory>) {
    exists rc :: (r.serial, rc) in wins && r.ok == (rc == 0)
  }

  ghost predicate ResultsOk(s: State, wins: set<Victory>) {
    && (forall w :: w in wins ==> w.0 in s.won)
    && (forall v, w :: v in wins && w in wins && v.0 == w.0 ==> v == w)
    && (forall th :: th in s.attempts ==> AttemptFine(s.attempts[th], wins))
    && (forall d :: d in s.calls ==> CallFine(s.calls[d], wins))
    && (forall i :: 0 <= i < |s.replies| ==> ReplyFine(s.replies[i], wins))
  }

  // The same state of results under more wins.
  lemma MoreWins(s: State, wins: set<Victory>, more: set<Victory>)
    requires ResultsOk(s, wins) && wins <= more
    ensures forall th :: th in s.attempts ==> AttemptFine(s.attempts[th], more)
    ensures forall d :: d in s.calls ==> CallFine(s.calls[d], more)
    ensures forall i :: 0 <= i < |s.replies| ==> ReplyFine(s.replies[i], more)
  {
    forall i | 0 <= i < |s.replies| ensures ReplyFine(s.replies[i], more) {
      assert ReplyFine(s.replies[i], wins);
      var rc :| (s.replies[i].serial, rc) in wins && s.replies[i].ok == (rc == 0);
      assert (s.replies[i].serial, rc) in more;
    }
  }

  lemma DrainEffect(s: State, d: Did, append: Append)
    requires d in s.calls && s.calls[d].conn in s.conns
    ensures var s', call := DrainCall(s, d, append), s.calls[d];
            && s'.won == s.won && s'.attempts == s.attempts && s'.calls == s.calls - {d}
            && var reply := Reply(call.serial, s.conns[call.conn].serial, call.ids, call.result == Some(0));
               s'.replies == s.replies || s'.replies == s.replies + [reply]
  {
    hide Remove;
  }

  // A drained call has a result, and the reply repeats it.
  lemma DrainResults(s: State, s': State, append: Append, wins: set<Victory>)
    requires Inv(s) && ResultsOk(s, wins) && s.pc.Draining? && s.pc.todo != [] && s.pc.todo[0] in s.calls
    requires s.calls[s.pc.todo[0]].conn in s.conns
    requires s' == DrainCall(s, s.pc.todo[0], append).(pc := s'.pc)
    ensures ResultsOk(s', wins)
  {
    hide ListsOk, CountsOk, RefsOk, SerialsOk, LogsOk, RepliesOk, ControlOk, HandlerOk, DrainCall;
    var d := s.pc.todo[0];
    DrainEffect(s, d, append);
    assert d in Queue(s.pc, s.completed);
    var call := s.calls[d];
    assert call.result.Some? && CallFine(call, wins);
    hide Inv;
    forall i | 0 <= i < |s'.replies| ensures ReplyFine(s'.replies[i], wins) {
      if i < |s.replies| {
        assert s'.replies[i] == s.replies[i];
      } else {
        var rc := call.result.value;
        assert (s'.replies[i].serial, rc) in wins && s'.replies[i].ok == (rc == 0);
      }
    }
  }

  // What most steps of the worker keep: replies and wins, and attempts and results but for fresh ones.
  ghost predicate KeepsResults(s: State, s': State) {
    && s'.won == s.won && s'.replies == s.replies
    && (forall th :: th in s'.attempts ==>
          th in s.attempts && (s'.attempts[th] == s.attempts[th] || !s'.attempts[th].Won?))
    && (forall d :: d in s'.calls ==> (d in s.calls && s'.calls[d] == s.calls[d]) || s'.calls[d].result.None?)
  }

  lemma KeptResults(s: State, s': State, wins: set<Victory>)
    requires ResultsOk(s, wins) && KeepsResults(s, s')
    ensures ResultsOk(s', wins)
  {
    hide ReplyFine;
  }

  lemma WinResults(s: State, th: Tid, d: Did, rc: int, wins: set<Victory>)
    requires ResultsOk(s, wins) && d in s.calls && s.calls[d].serial !in s.won
    ensures ResultsOk(Win(s, th, d, rc), wins + {(s.calls[d].serial, rc)})
  {
    MoreWins(s, wins, wins + {(s.calls[d].serial, rc)});
    hide ReplyFine;
  }

  lemma StoreResults(s: State, th: Tid, d: Did, rc: int, wins: set<Victory>)
    requires ResultsOk(s, wins) && d in s.calls && th in s.attempts
    requires s.attempts[th] == Won(d, s.calls[d].serial, rc)
    ensures ResultsOk(Store(s, th, d, rc), wins)
  {
    assert AttemptFine(s.attempts[th], wins);
    hide ReplyFine;
  }

  lemma Unwon(s: State, d: Did)
    requires Inv(s) && d in s.calls && !s.calls[d].completed
    ensures s.calls[d].serial !in s.won
  {
    hide ListsOk, CountsOk, RefsOk, SerialsOk, RepliesOk, QueueOk, ControlOk, HandlerOk;
  }

  lemma StepKeeps(s: State, th: Tid)
    requires th in s.attempts
    ensures KeepsResults(s, Lose(s, th)) && KeepsResults(s, WakeUp(s, th))
    ensures forall d :: d in s.calls ==> KeepsResults(s, Push(s, th, d))
  {
  }

  lemma AttemptResults(s: State, th: Tid, s': State, wins: set<Victory>)
    requires Inv(s) && AttemptStep(s, th, s') && ResultsOk(s, wins)
    ensures ResultsOk(s', wins + WinOf(s, Attempt(th)))
  {
    hide Inv, ResultsOk, KeepsResults, Lose, Win, Store, Push, WakeUp;
    StepKeeps(s, th);
    assert wins + {} == wins;
    match s.attempts[th]
    case Trying(d, _, rc) =>
      if s.calls[d].completed {
        KeptResults(s, s', wins);
      } else {
        Unwon(s, d);
        WinResults(s, th, d, rc, wins);
      }
    case Won(d, _, rc) => StoreResults(s, th, d, rc, wins);
    case _ => KeptResults(s, s', wins);
  }

  lemma CloseKeeps(s: State, c: Cid)
    requires c in s.conns
    ensures KeepsResults(s, MaybeClose(s, c))
  {
    hide Remove;
  }

  lemma SameKeeps(s: State, s': State)
    requires s'.won == s.won && s'.replies == s.replies && s'.attempts == s.attempts && s'.calls == s.calls
    ensures KeepsResults(s, s')
  {
  }

  // A read starts calls, and a handler that fails tries to fail its call: neither has a result yet.
  lemma ReadKeeps(s: State, act: Act, s': State)
    requires s.pc.Reading? && ReadStep(s, s.pc, act, s')
    ensures KeepsResults(s, s')
  {
  }

  lemma HandleKeeps(s: State, act: Act, s': State)
    requires WorkStep(s, act, s') && (s.pc.Handling? || s.pc.Failing?)
    ensures KeepsResults(s, s')
  {
  }

  lemma FlushKeeps(s: State, act: Act, s': State)
    requires WorkStep(s, act, s') && s.pc.Flushing?
    ensures KeepsResults(s, s')
  {
    hide MaybeClose, Write;
    if s.pc.conns != [] {
      var c := s.pc.conns[0];
      var k := s.conns[c].(writeQueued := false);
      CloseKeeps(SetConn(s, c, if k.unsent then Write(k, act.sent) else k), c);
    }
  }

  lemma BatchKeeps(s: State, evs: seq<Event>, act: Act, s': State)
    requires BatchStep(s, evs, act, s')
    ensures s'.won == s.won && s'.replies == s.replies && s'.attempts == s.attempts && s'.calls == s.calls
  {
    if evs != [] {
      match evs[0]
      case Wake => if act.Accepts? {} else {}
      case Listener =>
      case On(_, _, _) =>
    }
  }

  lemma WorkKeeps(s: State, act: Act, s': State)
    requires WorkStep(s, act, s') && !(s.pc.Draining? && s.pc.todo != [])
    ensures KeepsResults(s, s')
  {
    hide ReadStep, BatchStep, MaybeClose, Write, EventsOk;
    match s.pc
    case Batch(evs) =>
      hide KeepsResults;
      BatchKeeps(s, evs, act, s');
      SameKeeps(s, s');
    case Reading(_, _, _) => ReadKeeps(s, act, s');
    case Handling(_, _, _, _) => HandleKeeps(s, act, s');
    case Failing(_, _, _, _) => HandleKeeps(s, act, s');
    case Closing(c, _) => CloseKeeps(s, c);
    case Flushing(_) => FlushKeeps(s, act, s');
    case _ => OtherKeeps(s, act, s');
  }

  lemma OtherKeeps(s: State, act: Act, s': State)
    requires WorkStep(s, act, s')
    requires s.pc.Poll? || s.pc.Writing? || (s.pc.Draining? && s.pc.todo == [])
    ensures KeepsResults(s, s')
  {
    hide KeepsResults, Write, EventsOk;
    SameKeeps(s, s');
  }

  lemma WorkResults(s: State, act: Act, s': State, wins: set<Victory>)
    requires Inv(s) && WorkStep(s, act, s') && ResultsOk(s, wins)
    ensures ResultsOk(s', wins)
  {
    hide Inv, ResultsOk, KeepsResults;
    if s.pc.Draining? && s.pc.todo != [] {
      DrainResults(s, s', act.append, wins);
    } else {
      WorkKeeps(s, act, s');
      KeptResults(s, s', wins);
    }
  }

  lemma ResultsNext(s: State, act: Act, s': State, wins: set<Victory>)
    requires Inv(s) && Next(s, act, s') && ResultsOk(s, wins)
    ensures ResultsOk(s', wins + WinOf(s, act))
  {
    hide Inv, WorkStep, AttemptStep;
    match act
    case Begin(th, d, rc) => assert wins + {} == wins;
    case Attempt(th) => AttemptResults(s, th, s', wins);
    case Nudge => assert wins + {} == wins;
    case _ =>
      assert wins + {} == wins;
      WorkResults(s, act, s', wins);
  }

  lemma {:induction false} RunResults(states: seq<State>, acts: seq<Act>, n: nat)
    requires Run(states, acts) && n <= |acts|
    ensures ResultsOk(states[n], Wins(states, acts, n))
  {
    hide Next, Inv, WinOf;
    if n > 0 {
      RunResults(states, acts, n - 1);
      RunInv(states, acts, n - 1);
      hide ResultsOk;
      ResultsNext(states[n - 1], acts[n - 1], states[n], Wins(states, acts, n - 1));
    }
  }

  // In every run: at most one attempt on a call wins, and the reply to a drained call is a response if and only if
  // the winning attempt completed it, an error if and only if that attempt failed it.
  lemma ReplyMatchesWinner(states: seq<State>, acts: seq<Act>, i: nat)
    requires Run(states, acts) && i < |states[|acts|].replies|
    ensures var r, wins := states[|acts|].replies[i], Wins(states, acts, |acts|);
            && (exists rc :: (r.serial, rc) in wins)
            && (forall rc :: (r.serial, rc) in wins ==> (r.ok <==> rc == 0))
  {
    RunResults(states, acts, |acts|);
    var r, wins := states[|acts|].replies[i], Wins(states, acts, |acts|);
    assert ReplyFine(r, wins);
    var rc :| (r.serial, rc) in wins && r.ok == (rc == 0);
    forall other | (r.serial, other) in wins ensures r.ok <==> other == 0 {
      assert (r.serial, other) == (r.serial, rc);
    }
  }
}
