/** Connections that are closing and never close: `maybe_close` waits for the output to be sent, and nothing
    sends it. */
module WorkerStuck {
  import opened Options
  import opened Sequences
  import opened Worker
  import opened WorkerInvariant
  import opened WorkerTheorems

  predicate Stuck(k: Conn) {
    k.closing && !k.detached && k.unsent && !k.writeQueued
  }

  // The worker is inside `connection_read` of c.
  predicate Serving(pc: PC, c: Cid) {
    (pc.Reading? || pc.Handling? || pc.Failing?) && pc.c == c
  }

  ghost predicate StuckAt(s: State, c: Cid) {
    c in s.conns && Stuck(s.conns[c]) && !Serving(s.pc, c)
  }

  ghost predicate StaysStuck(s: State, s': State, c: Cid)
    requires c in s.conns
  {
    StuckAt(s', c) && s'.conns[c].serial == s.conns[c].serial
  }

  // ---------- stuck is for good ----------

  lemma Destroyed(s: State, c: Cid)
    requires c in s.conns
    ensures var s' := Destroy(s, c);
            && (c in s'.conns ==> s'.conns[c].detached)
            && (forall e :: e != c ==> (e in s'.conns <==> e in s.conns))
            && (forall e :: e != c && e in s.conns ==> s'.conns[e] == s.conns[e])
            && (s.pendingWrites == [] ==> s'.pendingWrites == [])
  {
    if s.conns[c].detached {} else if s.conns[c].pending != 0 {}
  }

  lemma CloseOthers(s: State, e: Cid, c: Cid)
    requires e in s.conns && c in s.conns && (e == c ==> Stuck(s.conns[c]))
    ensures var s' := MaybeClose(s, e); c in s'.conns && s'.conns[c] == s.conns[c]
  {
    hide Destroy;
    Destroyed(s, e);
  }

  // Draining a call changes its own connection, and of a stuck one the number of its calls.
  lemma DrainOthers(s: State, d: Did, append: Append, c: Cid)
    requires d in s.calls && s.calls[d].conn in s.conns && c in s.conns && Stuck(s.conns[c])
    ensures var s' := DrainCall(s, d, append);
            c in s'.conns && Stuck(s'.conns[c]) && s'.conns[c].serial == s.conns[c].serial
  {
    hide Destroy, QueuePacket, Stray;
    var e := s.calls[d].conn;
    if e == c {
    } else {
      DrainElsewhere(s, d, append, c);
    }
  }

  lemma DrainElsewhere(s: State, d: Did, append: Append, c: Cid)
    requires d in s.calls && s.calls[d].conn in s.conns && c in s.conns && c != s.calls[d].conn
    ensures var s' := DrainCall(s, d, append); c in s'.conns && s'.conns[c] == s.conns[c]
  {
    hide Remove;
  }

  // A stuck connection is not on the write list.
  lemma NotListed(s: State, c: Cid)
    requires Inv(s) && s.pc.Flushing? && s.pc.conns != [] && c in s.conns && Stuck(s.conns[c])
    ensures s.pc.conns[0] != c
  {
    hide CountsOk, RefsOk, SerialsOk, LogsOk, RepliesOk, QueueOk, ControlOk, HandlerOk, Distinct;
    assert s.pc.conns[0] in WriteList(s.pc, s.pendingWrites);
  }

  lemma BatchStuck(s: State, evs: seq<Event>, act: Act, s': State, c: Cid)
    requires BatchStep(s, evs, act, s') && s.pc == Batch(evs) && StuckAt(s, c)
    ensures StaysStuck(s, s', c)
  {
    if evs != [] {
      match evs[0]
      case Wake => if act.Accepts? {} else {}
      case Listener =>
      case On(_, _, _) =>
    }
  }

  lemma ReadStuck(s: State, act: Act, s': State, c: Cid)
    requires s.pc.Reading? && ReadStep(s, s.pc, act, s') && StuckAt(s, c)
    ensures StaysStuck(s, s', c)
  {
  }

  lemma WriteStuck(s: State, act: Act, s': State, c: Cid)
    requires WorkStep(s, act, s') && (s.pc.Writing? || s.pc.Closing?) && StuckAt(s, c)
    ensures StaysStuck(s, s', c)
  {
    hide MaybeClose, Write;
    if s.pc.Closing? { CloseOthers(s, s.pc.c, c); }
  }

  lemma DrainStuck(s: State, act: Act, s': State, c: Cid)
    requires WorkStep(s, act, s') && s.pc.Draining? && StuckAt(s, c)
    ensures StaysStuck(s, s', c)
  {
    hide DrainCall;
    if s.pc.todo != [] { DrainOthers(s, s.pc.todo[0], act.append, c); }
  }

  lemma FlushStuck(s: State, act: Act, s': State, c: Cid)
    requires Inv(s) && WorkStep(s, act, s') && s.pc.Flushing? && StuckAt(s, c)
    ensures StaysStuck(s, s', c)
  {
    hide MaybeClose, Write, Inv;
    if s.pc.conns != [] {
      NotListed(s, c);
      var e := s.pc.conns[0];
      var k := s.conns[e].(writeQueued := false);
      CloseOthers(SetConn(s, e, if k.unsent then Write(k, act.sent) else k), e, c);
    }
  }

  lemma OtherStuck(s: State, act: Act, s': State, c: Cid)
    requires WorkStep(s, act, s') && (s.pc.Poll? || s.pc.Handling? || s.pc.Failing?) && StuckAt(s, c)
    ensures StaysStuck(s, s', c)
  {
    hide EventsOk;
  }

  lemma WorkStuck(s: State, act: Act, s': State, c: Cid)
    requires Inv(s) && WorkStep(s, act, s') && StuckAt(s, c)
    ensures StaysStuck(s, s', c)
  {
    hide Inv, StuckAt, StaysStuck;
    match s.pc
    case Batch(evs) => BatchStuck(s, evs, act, s', c);
    case Reading(_, _, _) => ReadStuck(s, act, s', c);
    case Writing(_, _, _) => WriteStuck(s, act, s', c);
    case Closing(_, _) => WriteStuck(s, act, s', c);
    case Draining(_, _) => DrainStuck(s, act, s', c);
    case Flushing(_) => FlushStuck(s, act, s', c);
    case _ => OtherStuck(s, act, s', c);
  }

  // No step of anyone sends its output, closes it, or takes it off the connection list.
  lemma StuckStays(s: State, act: Act, s': State, c: Cid)
    requires Inv(s) && Next(s, act, s') && StuckAt(s, c)
    ensures StaysStuck(s, s', c)
  {
    hide Inv, WorkStep;
    match act
    case Begin(_, _, _) =>
    case Attempt(_) =>
    case Nudge =>
    case _ => WorkStuck(s, act, s', c);
  }

  lemma {:induction false} StuckForever(states: seq<State>, acts: seq<Act>, i: nat, n: nat, c: Cid)
    requires Run(states, acts) && i <= n < |states| && StuckAt(states[i], c)
    ensures StaysStuck(states[i], states[n], c) && states[i].conns[c].serial !in states[n].freed
    decreases n
  {
    hide Next, Init, Inv, Stuck, Serving;
    RunInv(states, acts, n);
    if i < n {
      StuckForever(states, acts, i, n - 1, c);
      RunInv(states, acts, n - 1);
      StuckStays(states[n - 1], acts[n - 1], states[n], c);
    }
    hide Run;
    NotFreed(states[n], c);
  }

  lemma NotFreed(s: State, c: Cid)
    requires Inv(s) && c in s.conns
    ensures s.conns[c].serial !in s.freed
  {
    hide ListsOk, CountsOk, RefsOk, LogsOk, RepliesOk, QueueOk, ControlOk, HandlerOk;
  }

  // ---------- and nothing else is left closing ----------

  // A connection that is to be closed waits for its output or has the worker's attention; at rest the write list is
  // empty.
  ghost predicate ClosingOk(s: State) {
    && (forall c :: c in s.conns && s.conns[c].closing && !s.conns[c].detached ==>
          s.conns[c].unsent || Current(s.pc) == Some(c))
    && (s.pc.Poll? || s.pc.Flushing? ==> s.pendingWrites == [])
  }

  lemma CloseClosing(s: State, c: Cid)
    requires c in s.conns
    ensures var s' := MaybeClose(s, c);
            && (c in s'.conns && s'.conns[c].closing && !s'.conns[c].detached ==> s'.conns[c].unsent)
            && (forall e :: e in s'.conns && e != c ==> e in s.conns && s'.conns[e] == s.conns[e])
            && (s.pendingWrites == [] ==> s'.pendingWrites == [])
  {
    hide Destroy;
    Destroyed(s, c);
  }

  lemma DrainClosing(s: State, d: Did, append: Append)
    requires d in s.calls && s.calls[d].conn in s.conns
    ensures forall c :: c in DrainCall(s, d, append).conns ==>
              && c in s.conns
              && var k, k' := s.conns[c], DrainCall(s, d, append).conns[c];
                 k'.closing && !k'.detached ==> k.closing && !k.detached && (k.unsent ==> k'.unsent)
  {
    hide Remove;
  }

  lemma BatchClosing(s: State, evs: seq<Event>, act: Act, s': State)
    requires BatchStep(s, evs, act, s') && s.pc == Batch(evs) && ClosingOk(s)
    ensures ClosingOk(s')
  {
    if evs != [] {
      match evs[0]
      case Wake => if act.Accepts? {} else {}
      case Listener =>
      case On(_, _, _) =>
    }
  }

  lemma ReadClosing(s: State, act: Act, s': State)
    requires s.pc.Reading? && ReadStep(s, s.pc, act, s') && ClosingOk(s)
    ensures ClosingOk(s')
  {
  }

  lemma WriteClosing(s: State, act: Act, s': State)
    requires WorkStep(s, act, s') && (s.pc.Writing? || s.pc.Closing?) && ClosingOk(s)
    ensures ClosingOk(s')
  {
    hide MaybeClose, Write;
    if s.pc.Closing? { CloseClosing(s, s.pc.c); }
  }

  lemma DrainsClosing(s: State, act: Act, s': State)
    requires WorkStep(s, act, s') && s.pc.Draining? && ClosingOk(s)
    ensures ClosingOk(s')
  {
    hide DrainCall;
    if s.pc.todo != [] { DrainClosing(s, s.pc.todo[0], act.append); }
  }

  lemma FlushClosing(s: State, act: Act, s': State)
    requires WorkStep(s, act, s') && s.pc.Flushing? && ClosingOk(s)
    ensures ClosingOk(s')
  {
    hide MaybeClose, Write;
    if s.pc.conns != [] {
      var e := s.pc.conns[0];
      var k := s.conns[e].(writeQueued := false);
      CloseClosing(SetConn(s, e, if k.unsent then Write(k, act.sent) else k), e);
    }
  }

  lemma OtherClosing(s: State, act: Act, s': State)
    requires WorkStep(s, act, s') && (s.pc.Poll? || s.pc.Handling? || s.pc.Failing?) && ClosingOk(s)
    ensures ClosingOk(s')
  {
    hide EventsOk;
  }

  lemma ClosingNext(s: State, act: Act, s': State)
    requires Next(s, act, s') && ClosingOk(s)
    ensures ClosingOk(s')
  {
    hide ReadStep, BatchStep;
    if act.Begin? || act.Attempt? || act.Nudge? {
      hide WorkStep;
      assert s'.conns == s.conns && s'.pc == s.pc && s'.pendingWrites == s.pendingWrites by { hide ClosingOk; }
    } else {
      hide ClosingOk;
      match s.pc
      case Batch(evs) => BatchClosing(s, evs, act, s');
      case Reading(_, _, _) => ReadClosing(s, act, s');
      case Writing(_, _, _) => WriteClosing(s, act, s');
      case Closing(_, _) => WriteClosing(s, act, s');
      case Draining(_, _) => DrainsClosing(s, act, s');
      case Flushing(_) => FlushClosing(s, act, s');
      case _ => OtherClosing(s, act, s');
    }
  }

  lemma {:induction false} RunClosing(states: seq<State>, acts: seq<Act>, i: nat)
    requires Run(states, acts) && i < |states|
    ensures ClosingOk(states[i])
  {
    hide Next;
    if i > 0 {
      RunClosing(states, acts, i - 1);
      hide ClosingOk;
      ClosingNext(states[i - 1], acts[i - 1], states[i]);
    }
  }

  // Whatever connection is attached and closing when the worker polls stays so for good: its loop iteration either
  // closed it or never will it be closed, and which of the two depends on whether its output was sent.
  lemma ClosedNowOrNever(states: seq<State>, acts: seq<Act>, i: nat, n: nat, c: Cid)
    requires Run(states, acts) && i <= n < |states| && states[i].pc.Poll? && c in states[i].conns
    requires states[i].conns[c].closing && !states[i].conns[c].detached
    ensures states[i].conns[c].unsent
    ensures StaysStuck(states[i], states[n], c) && states[i].conns[c].serial !in states[n].freed
  {
    hide Run, Inv, StaysStuck;
    RunClosing(states, acts, i);
    RunInv(states, acts, i);
    Unqueued(states[i], c);
    StuckForever(states, acts, i, n, c);
  }

  lemma Unqueued(s: State, c: Cid)
    requires Inv(s) && s.pc.Poll? && s.pendingWrites == [] && c in s.conns
    ensures !s.conns[c].writeQueued
  {
    hide CountsOk, RefsOk, SerialsOk, LogsOk, RepliesOk, QueueOk, ControlOk, HandlerOk, Distinct;
  }

  // ---------- how it comes to that ----------

  // A reply of which only the header was appended, on a connection with nothing else queued.
  lemma StraySticks(s: State, s': State)
    requires Next(s, Strays, s') && s.pc.Reading? && s.pc.c in s.conns && !s.conns[s.pc.c].writeQueued
    ensures StuckAt(s', s.pc.c)
  {
  }

  // A send error in a flush.
  lemma FailedSendSticks(s: State, s': State)
    requires Inv(s) && Next(s, Flushes(Failed), s') && s.pc.Flushing? && s.pc.conns != [] && s.pc.conns[0] in s.conns
    requires s.conns[s.pc.conns[0]].unsent && !s.conns[s.pc.conns[0]].detached
    ensures StuckAt(s', s.pc.conns[0])
  {
    hide Inv;
  }

  // ---------- a run ----------

  // A worker with at most one connection and no calls.
  function At(pc: PC, wake: bool, conns: map<Cid, Conn>, connections: seq<Cid>, writes: seq<Cid>, next: nat): State {
    State(pc, conns, connections, writes, map[], [], map[WORKER := Ready], wake, next, map[], [], [], [], [], [])
  }

  // The worker with connection 0.
  function With(pc: PC, closing: bool, queued: bool, unsent: bool, writes: seq<Cid>): State {
    At(pc, false, map[0 := Conn(0, closing, false, queued, 0, unsent)], [0], writes, 1)
  }

  ghost predicate RunsTo(states: seq<State>, acts: seq<Act>, s: State) {
    Run(states, acts) && states[|acts|] == s
  }

  lemma Step(states: seq<State>, acts: seq<Act>, s: State, act: Act, s': State)
    returns (states': seq<State>, acts': seq<Act>)
    requires RunsTo(states, acts, s) && Next(s, act, s')
    ensures RunsTo(states', acts', s')
  {
    hide Next, Init;
    states', acts' := states + [s'], acts + [act];
    forall i | 0 <= i < |acts'| ensures Next(states'[i], acts'[i], states'[i + 1]) {
      if i < |acts| { assert states'[i] == states[i] && states'[i + 1] == states[i + 1]; }
    }
  }

  // A connection is accepted.
  lemma AcceptRun() returns (states: seq<State>, acts: seq<Act>)
    ensures RunsTo(states, acts, With(Poll, false, false, false, []))
  {
    var s0 := At(Poll, false, map[], [], [], 0);
    states, acts := [s0], [];
    assert RunsTo(states, acts, s0);
    hide RunsTo;
    var s1 := s0.(wake := true);
    states, acts := Step(states, acts, s0, Nudge, s1);
    var s2 := s0.(pc := Batch([Wake]));
    states, acts := Step(states, acts, s1, PollReturns([Wake]), s2);
    var s3 := With(Batch([Wake]), false, false, false, []);
    states, acts := Step(states, acts, s2, Accepts(0), s3);
    states, acts := EndWake(states, acts, s3);
    states, acts := EndBatch(states, acts, s3.(pc := Batch([])));
    states, acts := EndFlush(states, acts, s3.(pc := Flushing([])));
  }

  // A wake with nothing to drain.
  lemma EndWake(states: seq<State>, acts: seq<Act>, s: State) returns (states': seq<State>, acts': seq<Act>)
    requires RunsTo(states, acts, s) && s.pc == Batch([Wake]) && s.completed == []
    ensures RunsTo(states', acts', s.(pc := Batch([])))
  {
    hide RunsTo, ReadStep, DrainCall, MaybeClose, Write, EventsOk;
    assert [Wake][1..] == [];
    var s1, s2 := s.(pc := Draining([], Some([]))), s.(pc := Batch([]));
    states', acts' := Step(states, acts, s, Wakes, s1);
    states', acts' := Step(states', acts', s1, DrainEnds, s2);
  }

  // The end of a batch with nothing to drain.
  lemma EndBatch(states: seq<State>, acts: seq<Act>, s: State) returns (states': seq<State>, acts': seq<Act>)
    requires RunsTo(states, acts, s) && s.pc == Batch([]) && s.completed == []
    ensures RunsTo(states', acts', s.(pc := Flushing(s.pendingWrites), pendingWrites := []))
  {
    hide RunsTo, ReadStep, DrainCall, MaybeClose, Write, EventsOk;
    var s1, s2 := s.(pc := Draining([], None)), s.(pc := Flushing(s.pendingWrites), pendingWrites := []);
    states', acts' := Step(states, acts, s, BatchEnds, s1);
    states', acts' := Step(states', acts', s1, DrainEnds, s2);
  }

  lemma EndFlush(states: seq<State>, acts: seq<Act>, s: State) returns (states': seq<State>, acts': seq<Act>)
    requires RunsTo(states, acts, s) && s.pc == Flushing([])
    ensures RunsTo(states', acts', s.(pc := Poll))
  {
    hide RunsTo, ReadStep, BatchStep, DrainCall, MaybeClose, Write, EventsOk;
    var s1 := s.(pc := Poll);
    states', acts' := Step(states, acts, s, FlushEnds, s1);
  }

  // A request arrives and is answered.
  lemma AnswerRun() returns (states: seq<State>, acts: seq<Act>)
    ensures RunsTo(states, acts, With(Reading(0, false, []), false, true, true, [0]))
  {
    states, acts := AcceptRun();
    hide RunsTo;
    var s0, evs := With(Poll, false, false, false, []), [On(0, true, false)];
    assert evs[0] == On(0, true, false) && evs[1..] == [];
    var s1 := s0.(pc := Batch(evs));
    states, acts := Step(states, acts, s0, PollReturns(evs), s1);
    var s2 := s0.(pc := Reading(0, false, []));
    states, acts := Step(states, acts, s1, Enters, s2);
    var s3 := With(Reading(0, false, []), false, true, true, [0]);
    assert s3.conns == s2.conns[0 := s2.conns[0].(unsent := true, writeQueued := true)];
    states, acts := Step(states, acts, s2, Answers, s3);
  }

  lemma ReadRun() returns (states: seq<State>, acts: seq<Act>)
    ensures RunsTo(states, acts, With(Batch([]), false, true, true, [0]))
  {
    states, acts := AnswerRun();
    hide RunsTo;
    var s0 := With(Reading(0, false, []), false, true, true, [0]);
    var s1, s2, s3 := s0.(pc := Writing(0, false, [])), s0.(pc := Closing(0, [])), s0.(pc := Batch([]));
    states, acts := Step(states, acts, s0, ReadEnds, s1);
    assert s2.conns == s1.conns[0 := s1.conns[0]];
    states, acts := Step(states, acts, s1, Writes(All), s2);
    states, acts := Step(states, acts, s2, Closes, s3);
  }

  lemma FailSend(states: seq<State>, acts: seq<Act>) returns (states': seq<State>, acts': seq<Act>)
    requires RunsTo(states, acts, With(Flushing([0]), false, true, true, []))
    ensures RunsTo(states', acts', With(Flushing([]), true, false, true, []))
  {
    hide RunsTo, ReadStep, BatchStep, DrainCall, Destroy, EventsOk;
    var s, s' := With(Flushing([0]), false, true, true, []), With(Flushing([]), true, false, true, []);
    assert [0][1..] == [] && s'.conns == s.conns[0 := s.conns[0].(writeQueued := false, closing := true)];
    states', acts' := Step(states, acts, s, Flushes(Failed), s');
  }

  // The send fails: at the next poll the connection is closing, its reply unsent, and by `StuckForever` that is how
  // it stays.
  lemma StuckRun() returns (states: seq<State>, acts: seq<Act>)
    ensures Run(states, acts) && states[|acts|].pc.Poll? && StuckAt(states[|acts|], 0)
  {
    hide Run;
    states, acts := ReadRun();
    states, acts := EndBatch(states, acts, With(Batch([]), false, true, true, [0]));
    states, acts := FailSend(states, acts);
    states, acts := EndFlush(states, acts, With(Flushing([]), true, false, true, []));
  }
}
