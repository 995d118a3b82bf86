/** What the worker owes: a drained call is answered whenever its connection can still take the answer, an answer
    is on its way to be flushed, a flushed connection that is to be closed is closed, and a handler that fails fails
    its call. */
module WorkerAnswers {
  import opened Options
  import opened Worker
  import opened WorkerInvariant
  import opened WorkerTheorems
  import opened WorkerResults
  import WorkerSteps

  // ---------- answers ----------

  // The connection of the call can take an answer.
  predicate Open(k: Conn) {
    !k.detached && !k.closing
  }

  // Output waits, and the next flush will come by.
  ghost predicate Due(s: State, c: Cid) {
    c in s.conns && s.conns[c].unsent && s.conns[c].writeQueued && c in WriteList(s.pc, s.pendingWrites)
  }

  lemma DrainSplit(s: State, d: Did, append: Append)
    requires d in s.calls && s.calls[d].conn in s.conns
    ensures var s', call := DrainCall(s, d, append), s.calls[d];
            var k := s.conns[call.conn];
            && s'.drained == s.drained + [call.serial] && s'.calls == s.calls - {d}
            && (if Open(k) && append.Both? then
                  && s'.replies == s.replies + [Reply(call.serial, k.serial, call.ids, call.result == Some(0))]
                  && call.conn in s'.conns && s'.conns[call.conn].unsent && s'.conns[call.conn].writeQueued
                else s'.replies == s.replies)
  {
    hide Remove;
  }

  // Draining a call queues exactly one packet for it if its connection is attached and not closing and both appends
  // succeed, and none otherwise; the packet is on its way to the next flush.
  lemma DrainAnswers(s: State, append: Append, s': State)
    requires Inv(s) && Next(s, Drains(append), s')
    ensures s.pc.Draining? && s.pc.todo != [] && s.pc.todo[0] in s.calls && s.calls[s.pc.todo[0]].conn in s.conns
    ensures var call := s.calls[s.pc.todo[0]];
            var k := s.conns[call.conn];
            && s'.drained == s.drained + [call.serial] && s'.calls == s.calls - {s.pc.todo[0]}
            && (if Open(k) && append.Both? then
                  && s'.replies == s.replies + [Reply(call.serial, k.serial, call.ids, call.result == Some(0))]
                  && Due(s', call.conn)
                else s'.replies == s.replies)
  {
    hide Inv, DrainCall;
    DrainStepIs(s, append, s');
    DrainSplit(s, s.pc.todo[0], append);
    WorkerSteps.NextInv(s, Drains(append), s');
    hide Next;
    var c := s.calls[s.pc.todo[0]].conn;
    if c in s'.conns && s'.conns[c].writeQueued { Listed(s', c); }
  }

  lemma DrainStepIs(s: State, append: Append, s': State)
    requires Next(s, Drains(append), s')
    ensures s.pc.Draining? && s.pc.todo != [] && s.pc.todo[0] in s.calls && s.calls[s.pc.todo[0]].conn in s.conns
    ensures s' == DrainCall(s, s.pc.todo[0], append).(pc := Draining(s.pc.todo[1..], s.pc.back))
  {
    hide DrainCall, MaybeClose, Write, EventsOk;
  }

  lemma Listed(s: State, c: Cid)
    requires Inv(s) && c in s.conns && s.conns[c].writeQueued
    ensures c in WriteList(s.pc, s.pendingWrites)
  {
    hide CountsOk, RefsOk, SerialsOk, LogsOk, RepliesOk, QueueOk, ControlOk, HandlerOk;
  }

  // The same for a reply to the packet being handled.
  lemma AnswerQueued(s: State, s': State)
    requires Inv(s) && Next(s, Answers, s')
    ensures s.pc.Reading? && Due(s', s.pc.c)
  {
    hide Inv;
    AnswerStepIs(s, s');
    WorkerSteps.NextInv(s, Answers, s');
    hide Next;
    Listed(s', s.pc.c);
  }

  lemma AnswerStepIs(s: State, s': State)
    requires Next(s, Answers, s')
    ensures s.pc.Reading? && s.pc.c in s.conns && s' == QueuePacket(s, s.pc.c)
  {
    hide DrainCall, MaybeClose, Write, EventsOk, QueuePacket;
  }

  // Step i drains the call with this serial and answers it.
  ghost predicate AnsweredAt(states: seq<State>, acts: seq<Act>, i: nat, serial: nat)
    requires i < |acts| < |states|
  {
    && acts[i] == Drains(Both)
    && var s := states[i];
       && s.pc.Draining? && s.pc.todo != [] && s.pc.todo[0] in s.calls && s.calls[s.pc.todo[0]].conn in s.conns
       && s.calls[s.pc.todo[0]].serial == serial && Open(s.conns[s.calls[s.pc.todo[0]].conn])
  }

  ghost predicate Replied(s: State, serial: nat) {
    exists i :: 0 <= i < |s.replies| && s.replies[i].serial == serial
  }

  lemma SameReplies(s: State, act: Act, s': State)
    requires Next(s, act, s') && !act.Drains?
    ensures s'.replies == s.replies
  {
    hide ReadStep, BatchStep, DrainCall, MaybeClose, Write, EventsOk;
    if !act.Begin? && !act.Attempt? && !act.Nudge? { WorkKeeps(s, act, s'); }
  }

  lemma RepliedNext(s: State, act: Act, s': State, serial: nat)
    requires Inv(s) && Next(s, act, s')
    ensures Replied(s', serial) <==> Replied(s, serial) || AnsweredAt([s, s'], [act], 0, serial)
  {
    hide Next, Inv, Due;
    if act.Drains? {
      DrainAnswers(s, act.append, s');
      if Replied(s, serial) {
        var i :| 0 <= i < |s.replies| && s.replies[i].serial == serial;
        assert s'.replies[i].serial == serial;
      }
      if AnsweredAt([s, s'], [act], 0, serial) { assert s'.replies[|s.replies|].serial == serial; }
    } else {
      SameReplies(s, act, s');
    }
  }

  // In every run a call has been answered if and only if it was drained while its connection could take the answer
  // and both appends succeeded.
  lemma {:induction false} RepliedIff(states: seq<State>, acts: seq<Act>, n: nat, serial: nat)
    requires Run(states, acts) && n < |states|
    ensures Replied(states[n], serial) <==> exists i :: 0 <= i < n && AnsweredAt(states, acts, i, serial)
  {
    hide Next, Inv;
    if n > 0 {
      RepliedIff(states, acts, n - 1, serial);
      RunInv(states, acts, n - 1);
      RepliedNext(states[n - 1], acts[n - 1], states[n], serial);
      assert AnsweredAt([states[n - 1], states[n]], [acts[n - 1]], 0, serial) <==>
             AnsweredAt(states, acts, n - 1, serial);
      hide Run, AnsweredAt, Replied;
    }
  }

  // ---------- flushing and closing ----------

  // What is left of a connection after `maybe_close`: nothing, or a detached slot kept for its calls, if it was to be
  // closed and all is sent; and the connection as it was otherwise.
  lemma CloseEffect(s: State, c: Cid)
    requires c in s.conns && !s.conns[c].detached
    ensures var s', k := MaybeClose(s, c), s.conns[c];
            if !k.closing || k.unsent then s' == s
            else if k.pending == 0 then c !in s'.conns && s'.freed == s.freed + [k.serial]
            else c in s'.conns && s'.conns[c].detached && s'.conns[c].pending == k.pending && s'.freed == s.freed
  {
    hide Remove;
  }

  // A flush that sends everything takes the connection off the list with nothing unsent, and closes it if that is due;
  // one that does not leaves the output waiting, and a send error marks the connection.
  lemma FlushEffect(s: State, sent: Sent, s': State)
    requires Inv(s) && Next(s, Flushes(sent), s')
    ensures s.pc.Flushing? && s.pc.conns != [] && s.pc.conns[0] in s.conns && s'.pc == Flushing(s.pc.conns[1..])
    ensures var c := s.pc.conns[0];
            var k := s.conns[c];
            if k.unsent && sent.All? && k.closing && k.pending == 0 then c !in s'.conns
            else if k.unsent && sent.All? && k.closing then c in s'.conns && s'.conns[c].detached
            else if k.unsent && sent.All? then c in s'.conns && s'.conns[c] == k.(writeQueued := false, unsent := false)
            else if k.unsent then
              c in s'.conns && s'.conns[c] == k.(writeQueued := false, closing := k.closing || sent.Failed?)
            else if k.closing then c in s'.conns ==> s'.conns[c].detached
            else c in s'.conns && s'.conns[c] == k.(writeQueued := false)
  {
    FlushStepIs(s, sent, s');
    hide Next, MaybeClose;
    var c := s.pc.conns[0];
    var k := s.conns[c].(writeQueued := false);
    assert !k.detached by { Attached(s); }
    hide Inv;
    CloseEffect(SetConn(s, c, if k.unsent then Write(k, sent) else k), c);
  }

  lemma Attached(s: State)
    requires Inv(s) && s.pc.Flushing? && s.pc.conns != []
    ensures s.pc.conns[0] in s.conns && !s.conns[s.pc.conns[0]].detached
  {
    hide CountsOk, RefsOk, SerialsOk, LogsOk, RepliesOk, QueueOk, ControlOk, HandlerOk;
    assert s.pc.conns[0] in WriteList(s.pc, s.pendingWrites);
  }

  lemma FlushStepIs(s: State, sent: Sent, s': State)
    requires Next(s, Flushes(sent), s')
    ensures s.pc.Flushing? && s.pc.conns != [] && s.pc.conns[0] in s.conns
    ensures var k := s.conns[s.pc.conns[0]].(writeQueued := false);
            s' == MaybeClose(SetConn(s, s.pc.conns[0], if k.unsent then Write(k, sent) else k), s.pc.conns[0])
                  .(pc := Flushing(s.pc.conns[1..]))
  {
    hide DrainCall, MaybeClose, Write, EventsOk;
  }

  // ---------- events ----------

  // The worker is busy with an event of connection c, and has these left.
  ghost predicate Visiting(pc: PC, c: Cid, evs: seq<Event>) {
    (pc.Reading? || pc.Handling? || pc.Failing? || pc.Writing? || pc.Closing?) && pc.c == c && pc.evs == evs
  }

  ghost predicate Marked(s: State, c: Cid) {
    c in s.conns && s.conns[c].closing
  }

  // The connection is gone or detached, is not to be closed, or has output that holds up the close.
  ghost predicate Settled(s: State, c: Cid) {
    c in s.conns && !s.conns[c].detached && s.conns[c].closing ==> s.conns[c].unsent
  }

  predicate OwnWork(act: Act) {
    !act.Begin? && !act.Attempt? && !act.Nudge?
  }

  lemma VisitBegins(s: State, act: Act, s': State)
    requires Next(s, act, s') && OwnWork(act) && s.pc.Batch? && s.pc.evs != [] && s.pc.evs[0].On?
    ensures Visiting(s'.pc, s.pc.evs[0].c, s.pc.evs[1..])
  {
    hide ReadStep, DrainCall, MaybeClose, Write, EventsOk;
  }

  // A visit ends with `maybe_close`, and until then a connection that is to be closed stays so.
  lemma VisitNext(s: State, act: Act, s': State, c: Cid, evs: seq<Event>)
    requires Next(s, act, s') && Visiting(s.pc, c, evs)
    ensures if act.Closes?
            then s'.pc == Batch(evs) && Settled(s', c) && (Marked(s, c) ==> Marked(s', c) || c !in s'.conns)
            else Visiting(s'.pc, c, evs) && (Marked(s, c) ==> Marked(s', c))
  {
    hide WorkStep, AttemptStep, BeginStep, ReadStep, MaybeClose;
    if !OwnWork(act) {
      OthersLeave(s, act, s');
    } else if s.pc.Reading? {
      assert ReadStep(s, s.pc, act, s') && !act.Closes? by { ReadsOnly(s, act, s'); }
      ReadVisits(s, act, s');
    } else {
      WorkVisits(s, act, s');
      if act.Closes? { CloseSettles(s, c); }
    }
  }

  // Completing threads and wakers leave the worker and its connections alone.
  lemma OthersLeave(s: State, act: Act, s': State)
    requires Next(s, act, s') && !OwnWork(act)
    ensures s'.pc == s.pc && s'.conns == s.conns
  {
    hide WorkStep;
  }

  lemma ReadsOnly(s: State, act: Act, s': State)
    requires WorkStep(s, act, s') && s.pc.Reading?
    ensures ReadStep(s, s.pc, act, s') && !act.Closes?
  {
    hide BatchStep, DrainCall, MaybeClose, QueuePacket, EventsOk, Write;
  }

  lemma WorkVisits(s: State, act: Act, s': State)
    requires WorkStep(s, act, s') && (s.pc.Handling? || s.pc.Failing? || s.pc.Writing? || s.pc.Closing?)
    ensures if act.Closes? then s.pc.c in s.conns && s' == MaybeClose(s, s.pc.c).(pc := Batch(s.pc.evs))
            else Visiting(s'.pc, s.pc.c, s.pc.evs) && (Marked(s, s.pc.c) ==> Marked(s', s.pc.c))
  {
    hide BatchStep, ReadStep, DrainCall, MaybeClose, QueuePacket, EventsOk;
  }

  lemma CloseSettles(s: State, c: Cid)
    requires c in s.conns
    ensures Settled(MaybeClose(s, c), c)
    ensures s.conns[c].closing ==> Marked(MaybeClose(s, c), c) || c !in MaybeClose(s, c).conns
  {
    hide Remove;
  }

  lemma ReadVisits(s: State, act: Act, s': State)
    requires s.pc.Reading? && ReadStep(s, s.pc, act, s')
    ensures Visiting(s'.pc, s.pc.c, s.pc.evs) && (Marked(s, s.pc.c) ==> Marked(s', s.pc.c))
  {
  }

  lemma ShutMarks(s: State, s': State)
    requires Next(s, Shuts, s')
    ensures s.pc.Reading? && s'.pc == s.pc && Marked(s', s.pc.c)
  {
    hide DrainCall, MaybeClose, Write, EventsOk;
  }

  // Step k closes c if that is due, and goes on with evs.
  ghost predicate Concludes(states: seq<State>, acts: seq<Act>, k: nat, c: Cid, evs: seq<Event>)
    requires k < |acts| < |states|
  {
    acts[k].Closes? && states[k + 1].pc == Batch(evs) && Settled(states[k + 1], c)
  }

  // In every run an event of a connection is served: before the worker turns to another one it has gone through
  // `maybe_close`.
  lemma {:induction false} EventServed(states: seq<State>, acts: seq<Act>, i: nat, n: nat)
    requires Run(states, acts) && i < n < |states| && OwnWork(acts[i])
    requires states[i].pc.Batch? && states[i].pc.evs != [] && states[i].pc.evs[0].On?
    ensures var c, evs := states[i].pc.evs[0].c, states[i].pc.evs[1..];
            || Visiting(states[n].pc, c, evs)
            || exists k :: i < k < n && Concludes(states, acts, k, c, evs)
  {
    hide Next, Settled, Visiting, Init, OwnWork;
    var c, evs := states[i].pc.evs[0].c, states[i].pc.evs[1..];
    if n == i + 1 {
      VisitBegins(states[i], acts[i], states[n]);
    } else {
      EventServed(states, acts, i, n - 1);
      if Visiting(states[n - 1].pc, c, evs) {
        VisitNext(states[n - 1], acts[n - 1], states[n], c, evs);
        if acts[n - 1].Closes? { assert Concludes(states, acts, n - 1, c, evs); }
      }
    }
  }

  // The events of the batch that the worker has yet to turn to.
  function Left(pc: PC): Option<seq<Event>> {
    match pc
    case Batch(evs) => Some(evs)
    case Reading(_, _, evs) => Some(evs)
    case Handling(_, _, _, evs) => Some(evs)
    case Failing(_, _, _, evs) => Some(evs)
    case Writing(_, _, evs) => Some(evs)
    case Closing(_, evs) => Some(evs)
    case Draining(_, back) => back
    case _ => None
  }

  // The worker turns to the first event of evs, or ends the batch.
  predicate TurnsTo(s: State, act: Act, evs: seq<Event>) {
    s.pc == Batch(evs) && OwnWork(act) && !act.Accepts?
  }

  // Events leave the batch one at a time, from the front, when the worker turns to them.
  lemma LeftNext(s: State, act: Act, s': State, evs: seq<Event>)
    requires Next(s, act, s') && Left(s.pc) == Some(evs)
    ensures if TurnsTo(s, act, evs) then evs != [] ==> Left(s'.pc) == Some(evs[1..]) else Left(s'.pc) == Some(evs)
  {
    hide WorkStep, AttemptStep, BeginStep, ReadStep;
    if !OwnWork(act) {
      OthersLeave(s, act, s');
    } else if s.pc.Batch? {
      BatchLeft(s, act, s');
    } else if s.pc.Draining? {
      DrainLeft(s, act, s');
    } else {
      VisitNext(s, act, s', s.pc.c, evs);
    }
  }

  lemma BatchLeft(s: State, act: Act, s': State)
    requires WorkStep(s, act, s') && s.pc.Batch?
    ensures if act.Accepts? then s'.pc == s.pc else s.pc.evs != [] ==> Left(s'.pc) == Some(s.pc.evs[1..])
  {
    hide ReadStep, DrainCall, MaybeClose, QueuePacket, EventsOk, Write;
  }

  lemma DrainLeft(s: State, act: Act, s': State)
    requires WorkStep(s, act, s') && s.pc.Draining? && s.pc.back.Some?
    ensures Left(s'.pc) == s.pc.back
  {
    hide BatchStep, ReadStep, DrainCall, MaybeClose, QueuePacket, EventsOk, Write;
  }

  // In every run the worker turns to every event of a batch before it leaves the batch, in the order of the poll.
  lemma {:induction false} EventsInTurn(states: seq<State>, acts: seq<Act>, i: nat, n: nat, j: nat)
    requires Run(states, acts) && i < n < |states| && acts[i].PollReturns? && j <= |acts[i].evs|
    ensures var evs := acts[i].evs;
            || (exists m: nat :: m <= j && Left(states[n].pc) == Some(evs[m..]))
            || exists k :: i < k < n && TurnsTo(states[k], acts[k], evs[j..])
  {
    hide Next, Init, Left, TurnsTo;
    var evs := acts[i].evs;
    if n == i + 1 {
      Polled(states[i], acts[i], states[n]);
      assert evs[0..] == evs;
    } else {
      EventsInTurn(states, acts, i, n - 1, j);
      if m: nat :| m <= j && Left(states[n - 1].pc) == Some(evs[m..]) {
        LeftNext(states[n - 1], acts[n - 1], states[n], evs[m..]);
        if m < |evs| { assert evs[m..][1..] == evs[m + 1..]; }
        if !TurnsTo(states[n - 1], acts[n - 1], evs[m..]) {
          assert Left(states[n].pc) == Some(evs[m..]);
        } else if m < j {
          assert Left(states[n].pc) == Some(evs[m + 1..]);
        }
      }
    }
  }

  lemma Polled(s: State, act: Act, s': State)
    requires Next(s, act, s') && act.PollReturns?
    ensures Left(s'.pc) == Some(act.evs)
  {
    hide DrainCall, MaybeClose, QueuePacket, EventsOk, Write;
  }

  // Step k ends the visit to a connection that is to be closed: it is gone, detached, or waits for its output.
  ghost predicate Shut(states: seq<State>, acts: seq<Act>, k: nat, c: Cid)
    requires k < |acts| < |states|
  {
    && acts[k].Closes?
    && (c in states[k + 1].conns ==> states[k + 1].conns[c].closing
                                     && (states[k + 1].conns[c].detached || states[k + 1].conns[c].unsent))
  }

  // A packet that has the connection closed does so by the end of the visit.
  lemma {:induction false} ShutCloses(states: seq<State>, acts: seq<Act>, i: nat, n: nat)
    requires Run(states, acts) && i < n < |states| && acts[i].Shuts?
    ensures states[i].pc.Reading?
    ensures var c, evs := states[i].pc.c, states[i].pc.evs;
            || (Visiting(states[n].pc, c, evs) && Marked(states[n], c))
            || exists k :: i < k < n && Shut(states, acts, k, c)
  {
    hide Next, Init;
    ShutMarks(states[i], states[i + 1]);
    var c, evs := states[i].pc.c, states[i].pc.evs;
    if n > i + 1 {
      ShutCloses(states, acts, i, n - 1);
      if Visiting(states[n - 1].pc, c, evs) && Marked(states[n - 1], c) {
        VisitNext(states[n - 1], acts[n - 1], states[n], c, evs);
        if acts[n - 1].Closes? { assert Shut(states, acts, n - 1, c); }
      }
    }
  }

  // ---------- handlers that fail ----------

  // While the worker fails a call on behalf of its handler, the call is completed or the attempt still open.
  ghost predicate FailOk(s: State) {
    s.pc.Failing? ==>
      && s.pc.d in s.calls && WORKER in s.attempts
      && (s.calls[s.pc.d].completed || s.attempts[WORKER] == Trying(s.pc.d, s.calls[s.pc.d].serial, -1))
  }

  // A handler that returns an error without having completed its call has it failed with -1.
  lemma ErrorTries(s: State, s': State)
    requires Next(s, ReturnsError, s')
    ensures s.pc.Handling? && s.pc.d in s.calls
    ensures if s.calls[s.pc.d].completed then s'.pc.Reading?
            else && s'.pc.Failing? && s'.pc.d == s.pc.d && s'.calls == s.calls && WORKER in s'.attempts
                 && s'.attempts[WORKER] == Trying(s.pc.d, s.calls[s.pc.d].serial, -1)
  {
    hide DrainCall, MaybeClose, Write, EventsOk;
  }

  lemma AttemptFails(s: State, th: Tid, s': State)
    requires AttemptStep(s, th, s') && FailOk(s)
    ensures FailOk(s')
  {
  }

  lemma BatchFails(s: State, evs: seq<Event>, act: Act, s': State)
    requires BatchStep(s, evs, act, s') && s.pc == Batch(evs)
    ensures !s'.pc.Failing?
  {
    if evs != [] {
      match evs[0]
      case Wake => if act.Accepts? {} else {}
      case Listener =>
      case On(_, _, _) =>
    }
  }

  lemma ReadFails(s: State, act: Act, s': State)
    requires s.pc.Reading? && ReadStep(s, s.pc, act, s')
    ensures !s'.pc.Failing?
  {
  }

  // The worker enters that stage by `ErrorTries` only, and leaves calls alone in it.
  lemma WorkFails(s: State, act: Act, s': State)
    requires WorkStep(s, act, s') && s'.pc.Failing?
    ensures act.ReturnsError?
  {
    hide BatchStep, ReadStep, DrainCall, MaybeClose, Write, EventsOk;
    if s.pc.Batch? {
      BatchFails(s, s.pc.evs, act, s');
    } else if s.pc.Reading? {
      ReadFails(s, act, s');
    }
  }

  lemma FailNext(s: State, act: Act, s': State)
    requires Next(s, act, s') && FailOk(s)
    ensures FailOk(s')
  {
    hide WorkStep, AttemptStep;
    match act
    case Begin(_, _, _) =>
    case Attempt(th) => AttemptFails(s, th, s');
    case Nudge =>
    case _ =>
      if s'.pc.Failing? {
        WorkFails(s, act, s');
        ErrorTries(s, s');
      }
  }

  lemma {:induction false} RunFails(states: seq<State>, acts: seq<Act>, i: nat)
    requires Run(states, acts) && i < |states|
    ensures FailOk(states[i])
  {
    hide Next;
    if i > 0 {
      RunFails(states, acts, i - 1);
      hide FailOk;
      FailNext(states[i - 1], acts[i - 1], states[i]);
    }
  }

  // When the worker is done with that, the call is completed, whoever completed it.
  lemma ErrorCompletes(s: State, s': State)
    requires Reachable(s) && Next(s, FailReturns, s')
    ensures s.pc.Failing? && s.pc.d in s'.calls && s'.calls[s.pc.d].completed
  {
    hide Init;
    var states, acts :| Run(states, acts) && s == states[|acts|];
    RunFails(states, acts, |acts|);
    hide Run, DrainCall, MaybeClose, Write, EventsOk;
  }
}
