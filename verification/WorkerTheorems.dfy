/** What the worker guarantees in every run. */
module WorkerTheorems {
  import opened Sequences
  import opened Worker
  import opened WorkerInvariant
  import opened WorkerSteps

  lemma {:induction false} RunInv(states: seq<State>, acts: seq<Act>, i: nat)
    requires Run(states, acts) && i < |states|
    ensures Inv(states[i])
  {
    hide Inv, Init, Next;
    if i == 0 {
      InitInv(states[0]);
    } else {
      RunInv(states, acts, i - 1);
      NextInv(states[i - 1], acts[i - 1], states[i]);
    }
  }

  ghost predicate Reachable(s: State) {
    exists states, acts :: Run(states, acts) && s == states[|acts|]
  }

  lemma ReachableInv(s: State)
    requires Reachable(s)
    ensures Inv(s)
  {
    hide Inv;
    var states, acts :| Run(states, acts) && s == states[|acts|];
    RunInv(states, acts, |acts|);
  }

  // `pending_deferred` is the number of undrained calls of the connection, and the list memberships
  // are what `detached` and `write_queued` say.  A detached slot is kept only for its calls.
  lemma PendingIsCount(s: State)
    requires Reachable(s)
    ensures forall c :: c in s.conns ==> s.conns[c].pending == |CallsOf(s.calls, c)|
    ensures forall c :: c in s.conns && s.conns[c].detached ==> s.conns[c].pending > 0
    ensures forall c :: c in s.connections <==> c in s.conns && !s.conns[c].detached
    ensures forall c :: c in WriteList(s.pc, s.pendingWrites) <==> c in s.conns && s.conns[c].writeQueued
    ensures Distinct(s.connections) && Distinct(WriteList(s.pc, s.pendingWrites))
  {
    hide Reachable, Distinct, CallsOf;
    ReachableInv(s);
    hide RefsOk, SerialsOk, LogsOk, RepliesOk, QueueOk, ControlOk, HandlerOk;
  }

  // A connection slot goes back to the arena at most once per allocation and never while an
  // undrained call points to it.
  lemma FreedOnce(s: State)
    requires Reachable(s)
    ensures Distinct(s.freed)
    ensures forall c :: c in s.conns ==> s.conns[c].serial !in s.freed
    ensures forall d :: d in s.calls ==>
              && s.calls[d].conn in s.conns
              && s.conns[s.calls[d].conn].serial == s.calls[d].connSerial
              && s.calls[d].connSerial !in s.freed
  {
    hide Reachable, Distinct;
    ReachableInv(s);
    hide ListsOk, CountsOk, LogsOk, RepliesOk, QueueOk, ControlOk, HandlerOk;
  }

  // Whatever connection or call the worker is about to dereference is allocated, and so is the call of an
  // attempt the worker itself makes, and of an attempt of any thread once it has won.
  lemma NeverDangling(s: State)
    requires Reachable(s)
    ensures Current(s.pc).Some? ==> Current(s.pc).value in s.conns && !s.conns[Current(s.pc).value].detached
    ensures forall i :: 0 <= i < |Events(s.pc)| && Events(s.pc)[i].On? ==> Events(s.pc)[i].c in s.conns
    ensures s.pc.Flushing? && s.pc.conns != [] ==> s.pc.conns[0] in s.conns
    ensures s.pc.Draining? && s.pc.todo != [] ==> s.pc.todo[0] in s.calls && s.calls[s.pc.todo[0]].conn in s.conns
    ensures s.pc.Handling? || s.pc.Failing? ==> s.pc.d in s.calls
    ensures WORKER in s.attempts && OnCall(s.attempts[WORKER]) ==>
              s.attempts[WORKER].call in s.calls && s.calls[s.attempts[WORKER].call].serial == s.attempts[WORKER].serial
    ensures forall th :: th in s.attempts && (s.attempts[th].Won? || s.attempts[th].Stored?) ==>
              s.attempts[th].call in s.calls && s.calls[s.attempts[th].call].serial == s.attempts[th].serial
  {
    hide Reachable;
    ReachableInv(s);
    hide CountsOk, SerialsOk, LogsOk, RepliesOk;
    if s.pc.Draining? && s.pc.todo != [] { assert s.pc.todo[0] in Queue(s.pc, s.completed); }
    if s.pc.Flushing? && s.pc.conns != [] { assert s.pc.conns[0] in WriteList(s.pc, s.pendingWrites); }
  }

  // However completions, failures and handler returns interleave, a call is won once, queued once and
  // drained once, in the order of queueing; a completed call is never lost; and it is answered at
  // most once, on the connection it came from, with its own ids.
  lemma CompletedOnce(s: State)
    requires Reachable(s)
    ensures Distinct(s.won) && Distinct(s.drained)
    ensures forall d :: d in Queue(s.pc, s.completed) ==> d in s.calls
    ensures s.queued == s.drained + Serials(s.calls, Queue(s.pc, s.completed))
    ensures Distinct(s.queued)
    ensures forall d :: d in s.calls ==> (s.calls[d].completed <==> s.calls[d].serial in s.won)
    ensures forall d :: d in s.calls && s.calls[d].completed ==>
              d in Queue(s.pc, s.completed) || HasOwner(s.attempts, d)
    ensures forall i :: 0 <= i < |s.replies| ==>
              var r := s.replies[i];
              r.serial in s.drained && r.serial in s.started && s.started[r.serial] == (r.connSerial, r.ids)
    ensures forall i, j :: 0 <= i < j < |s.replies| ==> s.replies[i].serial != s.replies[j].serial
  {
    hide Reachable;
    ReachableInv(s);
    hide ListsOk, CountsOk, RefsOk, ControlOk, HandlerOk;
    var q := Queue(s.pc, s.completed);
    var n := Serials(s.calls, q);
    forall i, j | 0 <= i < j < |s.queued| ensures s.queued[i] != s.queued[j] {
      var k := |s.drained|;
      if i >= k {
        assert q[i - k] != q[j - k];
      } else if j >= k {
        assert s.queued[i] in s.drained && q[j - k] in q;
      }
    }
  }

  // An exchange wins exactly when no earlier one has; a loser changes nothing.
  lemma ExchangeOutcome(s: State, th: Tid, s': State)
    requires Inv(s) && AttemptStep(s, th, s') && s.attempts[th].Trying?
    ensures var n := s.attempts[th].serial;
            if n in s.won then s'.won == s.won && s'.calls == s.calls && s'.attempts[th].Ready?
            else s'.won == s.won + [n] && s'.attempts[th].Won?
  {
    hide ListsOk, CountsOk, RefsOk, SerialsOk, RepliesOk, QueueOk, ControlOk, HandlerOk;
  }
}
